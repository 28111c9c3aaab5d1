/** ROI specifications: `RoiSpecifications(DataModel)` defines nothing beyond
    its constructor, so a ROI store is the base store over `Roi` values. */
module RoiSpecifications {
  import opened Builtins
  import opened DataModelBase

  /** What a ROI refers to (`lc.Roi.reference`): nothing, a dataset itself,
      the file metadata of a dataset, or a file path with its file type. */
  datatype Reference<L> =
    | NoReference
    | LocdataReference(locdata: L)
    | MetaFileReference(owner: L)
    | FilePathReference(filePath: string, fileType: string)

  /** A region of interest (`lc.Roi`): a reference, a region `R` and the two
      localization properties the region is given in. */
  datatype Roi<R, L> = Roi(reference: Reference<L>, region: R, locProperties: seq<string>)

  type RoiStore<R, L> = DataModel<Roi<R, L>>

  /** An empty construction holds nothing and selects nothing; two ROIs
      named "1" and "2" select the second. */
  method RoiConstructionRun<R, L>(a: Roi<R, L>, b: Roi<R, L>)
    returns (emptyState: (seq<Roi<R, L>>, seq<string>, int), emptyRead: (Result<Option<Roi<R, L>>>, Result<string>),
             size: nat, index: int, name: Result<string>)
    ensures emptyState == ([], [], -1) && emptyRead == (Ok(None), Ok(""))
    ensures size == 2 && index == 1 && name == Ok("2")
  {
    var r := RoiStore<R, L>.Create(None, None);
    var store := r.value;
    emptyState, emptyRead := (store.datasets, store.names, store.index), (store.Dataset(), store.Name());
    r := RoiStore<R, L>.Create(Some([a, b]), Some(["1", "2"]));
    store := r.value;
    size, index, name := |store.datasets|, store.index, store.Name();
  }

  /** Setting the cursor, renaming the active ROI and appending one each
      notify the listeners of names and cursor: the store returned has
      exactly this log of notifications. */
  method RoiNotificationRun<R, L>(a: Roi<R, L>, b: Roi<R, L>, c: Roi<R, L>) returns (store: RoiStore<R, L>)
    ensures store.datasets == [a, b, c] && store.names == ["other name", "2", "3"] && store.index == 2
    ensures store.signals == [
      ItemsChanged([a, b]), NamesChanged(["1", "2"]), IndexChanged(1),
      IndexChanged(0),
      NamesChanged(["other name", "2"]),
      ItemsChanged([a, b, c]), NamesChanged(["other name", "2", "3"]), IndexChanged(2)]
  {
    var r := RoiStore<R, L>.Create(Some([a, b]), Some(["1", "2"]));
    store := r.value;
    var res := store.SetIndex(0);
    res := store.SetName("other name");
    assert store.names == ["other name", "2"];
    res := store.AppendItem(Some(c), Some("3"), true);
  }
}
