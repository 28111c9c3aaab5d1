/** The project widget's store handling: "New" empties the four shared
    stores, saving packs them under fixed keys, and loading copies each
    packed store's datasets, names and cursor into the live store of the
    same kind. The pickle file and its dialogs are outside the model: the
    packed project is a value here (each store in its pickled form). */
module ProjectWidget {
  import opened Builtins
  import opened DataModelBase
  import opened FilterSpecifications
  import opened SmlmDataModel
  import opened RoiSpecifications

  const FilterKey := "filter_specifications"
  const RegionKey := "region_specifications"
  const RoiKey := "roi_specifications"
  const SmlmKey := "smlm_data"

  /** One store as the project file holds it. */
  datatype Packed<R, L> =
    | PackedFilters(filters: State<FilterMap>)
    | PackedRegions(regions: State<R>)
    | PackedRois(rois: State<Roi<R, L>>)
    | PackedSmlm(smlm: SmlmState<L>)

  /** A project: a dict from a key to a packed store. */
  type ProjectState<R, L> = map<string, Packed<R, L>>

  predicate HasFilters<R, L>(state: ProjectState<R, L>) {
    FilterKey in state && state[FilterKey].PackedFilters?
  }

  predicate HasRegions<R, L>(state: ProjectState<R, L>) {
    RegionKey in state && state[RegionKey].PackedRegions?
  }

  predicate HasRois<R, L>(state: ProjectState<R, L>) {
    RoiKey in state && state[RoiKey].PackedRois?
  }

  predicate HasSmlm<R, L>(state: ProjectState<R, L>) {
    SmlmKey in state && state[SmlmKey].PackedSmlm?
  }

  /** How many stores loading overwrites, in its fixed order filter, region,
      ROI, SMLM: it stops at the first key that is missing or does not hold
      that kind of store. */
  function Copied<R, L>(state: ProjectState<R, L>): (k: nat)
    ensures k <= 4
    ensures k == 4 <==> HasFilters(state) && HasRegions(state) && HasRois(state) && HasSmlm(state)
    ensures k >= 1 <==> HasFilters(state)
    ensures k >= 2 <==> HasFilters(state) && HasRegions(state)
    ensures k >= 3 <==> HasFilters(state) && HasRegions(state) && HasRois(state)
  {
    if !HasFilters(state) then 0
    else if !HasRegions(state) then 1
    else if !HasRois(state) then 2
    else if !HasSmlm(state) then 3
    else 4
  }

  /** The exception loading raises where it stops: KeyError for a missing
      key, AttributeError for an entry without the expected fields. */
  function StopError<R, L>(state: ProjectState<R, L>): (e: Error)
    requires Copied(state) < 4
    ensures e in {KeyError, AttributeError}
    ensures e == KeyError <==> [FilterKey, RegionKey, RoiKey, SmlmKey][Copied(state)] !in state
  {
    if [FilterKey, RegionKey, RoiKey, SmlmKey][Copied(state)] in state then AttributeError else KeyError
  }

  /** Every packed store present and of its kind can be restored without
      breaking the store's invariant. */
  predicate RestorableProject<R, L>(state: ProjectState<R, L>) {
    && (HasFilters(state) ==> Restorable(state[FilterKey].filters))
    && (HasRegions(state) ==> Restorable(state[RegionKey].regions))
    && (HasRois(state) ==> Restorable(state[RoiKey].rois))
    && (HasSmlm(state) ==> |state[SmlmKey].smlm.locdataNames| == |state[SmlmKey].smlm.locdatas|
                            && state[SmlmKey].smlm.index < |state[SmlmKey].smlm.locdatas|)
  }

  /** One step of loading: the three private fields are overwritten, the
      counter is kept, and names then cursor are announced. */
  method CopyInto<T>(target: DataModel<T>, s: State<T>)
    modifies target
    ensures target.datasets == s.datasets && target.names == s.names && target.index == s.index
    ensures target.count == old(target.count)
    ensures target.signals == old(target.signals) + [NamesChanged(s.names), IndexChanged(s.index)]
    ensures Restorable(s) ==> target.Valid()
  {
    target.datasets := s.datasets;
    target.names := s.names;
    target.index := s.index;
    target.signals := target.signals + [NamesChanged(target.names), IndexChanged(target.index)];
  }

  /** The same step for the SMLM store. */
  method CopySmlmInto<L>(target: SmlmData<L>, s: SmlmState<L>)
    modifies target
    ensures target.locdatas == s.locdatas && target.locdataNames == s.locdataNames && target.index == s.index
    ensures target.signals == old(target.signals) + [NamesChanged(s.locdataNames), IndexChanged(s.index)]
    ensures |s.locdataNames| == |s.locdatas| && s.index < |s.locdatas| ==> target.Valid()
  {
    target.locdatas := s.locdatas;
    target.locdataNames := s.locdataNames;
    target.index := s.index;
    target.signals := target.signals + [NamesChanged(target.locdataNames), IndexChanged(target.index)];
  }

  class NapariLocanProject<R, L> {
    const filterSpecifications: DataModel<FilterMap>
    const regionSpecifications: DataModel<R>
    const roiSpecifications: DataModel<Roi<R, L>>
    const smlmData: SmlmData<L>

    /** The four shared stores are distinct objects. */
    predicate Distinct() {
      && filterSpecifications as object != regionSpecifications as object
      && filterSpecifications as object != roiSpecifications as object
      && filterSpecifications as object != smlmData as object
      && regionSpecifications as object != roiSpecifications as object
      && regionSpecifications as object != smlmData as object
      && roiSpecifications as object != smlmData as object
    }

    ghost predicate Valid()
      reads filterSpecifications, regionSpecifications, roiSpecifications, smlmData
    {
      && Distinct()
      && filterSpecifications.Valid() && regionSpecifications.Valid()
      && roiSpecifications.Valid() && smlmData.Valid()
    }

    constructor (filters: DataModel<FilterMap>, regions: DataModel<R>, rois: DataModel<Roi<R, L>>, smlm: SmlmData<L>)
      requires filters as object != regions as object && filters as object != rois as object && filters as object != smlm as object
      requires regions as object != rois as object && regions as object != smlm as object && rois as object != smlm as object
      ensures Distinct()
      ensures filterSpecifications == filters && regionSpecifications == regions
      ensures roiSpecifications == rois && smlmData == smlm
    {
      filterSpecifications, regionSpecifications, roiSpecifications, smlmData := filters, regions, rois, smlm;
    }

    /** "New": `delete_all` on each store; the counters keep their values. */
    method New()
      requires Valid()
      modifies filterSpecifications, regionSpecifications, roiSpecifications, smlmData
      ensures Valid()
      ensures filterSpecifications.datasets == [] && filterSpecifications.names == [] && filterSpecifications.index == -1
      ensures regionSpecifications.datasets == [] && regionSpecifications.names == [] && regionSpecifications.index == -1
      ensures roiSpecifications.datasets == [] && roiSpecifications.names == [] && roiSpecifications.index == -1
      ensures smlmData.locdatas == [] && smlmData.locdataNames == [] && smlmData.index == -1
      ensures filterSpecifications.count == old(filterSpecifications.count)
      ensures regionSpecifications.count == old(regionSpecifications.count)
      ensures roiSpecifications.count == old(roiSpecifications.count)
      ensures filterSpecifications.signals == old(filterSpecifications.signals) + [NamesChanged([]), IndexChanged(-1)]
      ensures regionSpecifications.signals == old(regionSpecifications.signals) + [NamesChanged([]), IndexChanged(-1)]
      ensures roiSpecifications.signals == old(roiSpecifications.signals) + [NamesChanged([]), IndexChanged(-1)]
      ensures smlmData.signals == old(smlmData.signals) + [NamesChanged([]), IndexChanged(-1)]
    {
      filterSpecifications.DeleteAll();
      regionSpecifications.DeleteAll();
      roiSpecifications.DeleteAll();
      smlmData.DeleteAll();
    }

    /** Packing: the four stores under their fixed keys, each in the form
        the project file keeps of it. */
    function Pack(): (state: ProjectState<R, L>)
      reads filterSpecifications, regionSpecifications, roiSpecifications, smlmData
      requires Valid()
      ensures state.Keys == {FilterKey, RegionKey, RoiKey, SmlmKey}
      ensures Copied(state) == 4 && RestorableProject(state)
      ensures state[FilterKey] == PackedFilters(filterSpecifications.GetState())
      ensures state[RegionKey] == PackedRegions(regionSpecifications.GetState())
      ensures state[RoiKey] == PackedRois(roiSpecifications.GetState())
      ensures state[SmlmKey] == PackedSmlm(smlmData.GetState())
    {
      map[FilterKey := PackedFilters(filterSpecifications.GetState()),
          RegionKey := PackedRegions(regionSpecifications.GetState()),
          RoiKey := PackedRois(roiSpecifications.GetState()),
          SmlmKey := PackedSmlm(smlmData.GetState())]
    }

    /** Loading: overwrites datasets, names and cursor of each store from
        the packed store of its key, in the order filter, region, ROI, SMLM,
        without checking what it copies and without touching the counters.
        A missing key or an entry of another kind stops it with an error,
        after the stores before it were already overwritten. */
    method Unpack(state: ProjectState<R, L>) returns (res: Outcome)
      requires Valid()
      modifies filterSpecifications, regionSpecifications, roiSpecifications, smlmData
      ensures Distinct()
      ensures res == (if Copied(state) == 4 then Pass else Fail(StopError(state)))
      ensures RestorableProject(state) ==> Valid()
      ensures Copied(state) >= 1 ==>
        && var s := state[FilterKey].filters;
        && filterSpecifications.datasets == s.datasets && filterSpecifications.names == s.names
        && filterSpecifications.index == s.index && filterSpecifications.count == old(filterSpecifications.count)
        && filterSpecifications.signals == old(filterSpecifications.signals) + [NamesChanged(s.names), IndexChanged(s.index)]
      ensures Copied(state) >= 2 ==>
        && var s := state[RegionKey].regions;
        && regionSpecifications.datasets == s.datasets && regionSpecifications.names == s.names
        && regionSpecifications.index == s.index && regionSpecifications.count == old(regionSpecifications.count)
        && regionSpecifications.signals == old(regionSpecifications.signals) + [NamesChanged(s.names), IndexChanged(s.index)]
      ensures Copied(state) >= 3 ==>
        && var s := state[RoiKey].rois;
        && roiSpecifications.datasets == s.datasets && roiSpecifications.names == s.names
        && roiSpecifications.index == s.index && roiSpecifications.count == old(roiSpecifications.count)
        && roiSpecifications.signals == old(roiSpecifications.signals) + [NamesChanged(s.names), IndexChanged(s.index)]
      ensures Copied(state) == 4 ==>
        && var s := state[SmlmKey].smlm;
        && smlmData.locdatas == s.locdatas && smlmData.locdataNames == s.locdataNames && smlmData.index == s.index
        && smlmData.signals == old(smlmData.signals) + [NamesChanged(s.locdataNames), IndexChanged(s.index)]
      ensures Copied(state) < 1 ==> unchanged(filterSpecifications)
      ensures Copied(state) < 2 ==> unchanged(regionSpecifications)
      ensures Copied(state) < 3 ==> unchanged(roiSpecifications)
      ensures Copied(state) < 4 ==> unchanged(smlmData)
    {
      if FilterKey !in state {
        return Fail(KeyError);
      }
      match state[FilterKey] {
        case PackedFilters(s) =>
          CopyInto(filterSpecifications, s);
        case _ =>
          return Fail(AttributeError);
      }

      if RegionKey !in state {
        return Fail(KeyError);
      }
      match state[RegionKey] {
        case PackedRegions(s) =>
          CopyInto(regionSpecifications, s);
        case _ =>
          return Fail(AttributeError);
      }

      if RoiKey !in state {
        return Fail(KeyError);
      }
      match state[RoiKey] {
        case PackedRois(s) =>
          CopyInto(roiSpecifications, s);
        case _ =>
          return Fail(AttributeError);
      }

      if SmlmKey !in state {
        return Fail(KeyError);
      }
      match state[SmlmKey] {
        case PackedSmlm(s) =>
          CopySmlmInto(smlmData, s);
        case _ =>
          return Fail(AttributeError);
      }

      return Pass;
    }
  }

  /** Saving one project and loading the file into another gives the second
      project's stores the first one's datasets, names and cursors. */
  method SaveLoadRun<R, L>(saved: NapariLocanProject<R, L>, loaded: NapariLocanProject<R, L>) returns (res: Outcome)
    requires saved.Valid() && loaded.Valid()
    modifies loaded.filterSpecifications, loaded.regionSpecifications, loaded.roiSpecifications, loaded.smlmData
    ensures res == Pass && loaded.Valid()
    ensures loaded.filterSpecifications.datasets == old(saved.filterSpecifications.datasets)
    ensures loaded.filterSpecifications.names == old(saved.filterSpecifications.names)
    ensures loaded.filterSpecifications.index == old(saved.filterSpecifications.index)
    ensures loaded.regionSpecifications.datasets == old(saved.regionSpecifications.datasets)
    ensures loaded.regionSpecifications.names == old(saved.regionSpecifications.names)
    ensures loaded.regionSpecifications.index == old(saved.regionSpecifications.index)
    ensures loaded.roiSpecifications.datasets == old(saved.roiSpecifications.datasets)
    ensures loaded.roiSpecifications.names == old(saved.roiSpecifications.names)
    ensures loaded.roiSpecifications.index == old(saved.roiSpecifications.index)
    ensures loaded.smlmData.locdatas == old(saved.smlmData.locdatas)
    ensures loaded.smlmData.locdataNames == old(saved.smlmData.locdataNames)
    ensures loaded.smlmData.index == old(saved.smlmData.index)
  {
    var state := saved.Pack();
    res := loaded.Unpack(state);
  }

  /** A project file without the SMLM store overwrites the filter, region
      and ROI stores and then raises KeyError, leaving the SMLM store as it was. */
  method PartialLoadRun<R, L>(project: NapariLocanProject<R, L>, state: ProjectState<R, L>) returns (res: Outcome)
    requires project.Valid()
    requires HasFilters(state) && HasRegions(state) && HasRois(state) && SmlmKey !in state
    modifies project.filterSpecifications, project.regionSpecifications, project.roiSpecifications, project.smlmData
    ensures res == Fail(KeyError)
    ensures project.filterSpecifications.datasets == state[FilterKey].filters.datasets
    ensures project.roiSpecifications.names == state[RoiKey].rois.names
    ensures unchanged(project.smlmData)
  {
    res := project.Unpack(state);
  }
}
