/** What the ROI widget's handlers do to the three stores it shares: regions
    are taken from drawn shapes or from the active dataset and numbered from
    the ROI store's counter; ROIs are created from the active region, loaded,
    applied to the active dataset and deleted. The dialogs, the napari layers
    and `locan` itself are outside the model: their answers are parameters. */
module RoiWidget {
  import opened Builtins
  import opened DataModelBase
  import opened SmlmDataModel
  import opened RoiSpecifications

  /** The text of a region name: `{identifier}-{repr(region).split("(")[0]}`. */
  function RegionName(identifier: nat, repr: string): string {
    NatToString(identifier) + "-" + BeforeFirst(repr, '(')
  }

  /** The names given to regions taken together: consecutive identifiers
      from `first` on. */
  function RegionNames<R>(first: nat, regions: seq<R>, repr: R -> string): (r: seq<string>)
    ensures |r| == |regions|
    ensures forall k :: 0 <= k < |regions| ==> r[k] == RegionName(first + k, repr(regions[k]))
  {
    seq(|regions|, k requires 0 <= k < |regions| => RegionName(first + k, repr(regions[k])))
  }

  /** The notifications of appending the first `k` of `items` one at a
      time, each selected, to a store holding `datasets` and `names`: per
      append the new items, the new names and the new cursor. */
  ghost function AppendLog<T>(datasets: seq<T>, names: seq<string>, items: seq<T>, itemNames: seq<string>, k: nat): seq<Signal<T>>
    requires k <= |items| == |itemNames|
  {
    if k == 0 then []
    else
      AppendLog(datasets, names, items, itemNames, k - 1)
        + [ItemsChanged(datasets + items[..k]), NamesChanged(names + itemNames[..k]), IndexChanged(|datasets| + k - 1)]
  }

  /** The name of a created or loaded ROI: `roi_{n}`. */
  function RoiName(n: nat): string {
    "roi_" + NatToString(n)
  }

  /** A ROI name is "roi_" followed by digits that read back as its number. */
  lemma RoiNameDigits(n: nat)
    ensures |RoiName(n)| > 4 && RoiName(n)[..4] == "roi_"
    ensures IsDigits(RoiName(n)[4..]) && DigitsValue(RoiName(n)[4..]) == n
  {
    assert RoiName(n)[4..] == NatToString(n);
    DigitsValueOfNatToString(n);
  }

  /** The text up to a separator that the prefix does not contain is that prefix. */
  lemma {:induction false} BeforeFirstOfPrefix(prefix: string, sep: char, rest: string)
    requires sep !in prefix
    ensures BeforeFirst(prefix + [sep] + rest, sep) == prefix
  {
    if prefix != [] {
      assert (prefix + [sep] + rest)[1..] == prefix[1..] + [sep] + rest;
      BeforeFirstOfPrefix(prefix[1..], sep, rest);
    }
  }

  /** The identifier of a region name reads back from the text before its
      first "-". */
  lemma RegionNameIdentifier(identifier: nat, repr: string)
    ensures IsDigits(BeforeFirst(RegionName(identifier, repr), '-'))
    ensures DigitsValue(BeforeFirst(RegionName(identifier, repr), '-')) == identifier
  {
    var digits := NatToString(identifier);
    assert '-' !in digits by {
      assert forall i :: 0 <= i < |digits| ==> '0' <= digits[i] <= '9';
    }
    assert RegionName(identifier, repr) == digits + ['-'] + BeforeFirst(repr, '(');
    BeforeFirstOfPrefix(digits, '-', BeforeFirst(repr, '('));
    DigitsValueOfNatToString(identifier);
  }

  /** Regions named with different identifiers get different names,
      whatever their shapes. */
  lemma RegionNamesDiffer(a: nat, reprA: string, b: nat, reprB: string)
    requires a != b
    ensures RegionName(a, reprA) != RegionName(b, reprB)
  {
    RegionNameIdentifier(a, reprA);
    RegionNameIdentifier(b, reprB);
  }

  /** The names of regions taken together are pairwise different. */
  lemma RegionNamesDistinct<R>(first: nat, regions: seq<R>, repr: R -> string)
    ensures forall j, k :: 0 <= j < k < |regions| ==> RegionNames(first, regions, repr)[j] != RegionNames(first, regions, repr)[k]
  {
    forall j, k | 0 <= j < k < |regions|
      ensures RegionNames(first, regions, repr)[j] != RegionNames(first, regions, repr)[k]
    {
      RegionNamesDiffer(first + j, repr(regions[j]), first + k, repr(regions[k]));
    }
  }

  /** ROI names are equal exactly when their numbers are. */
  lemma RoiNameInjective(a: nat, b: nat)
    ensures RoiName(a) == RoiName(b) <==> a == b
  {
    if RoiName(a) == RoiName(b) {
      assert NatToString(a) == RoiName(a)[4..] && NatToString(b) == RoiName(b)[4..];
      NatToStringInjective(a, b);
    }
  }

  /** The answers of the two dialogs behind "File dialog": the chosen path,
      whether the file-type choice was confirmed, and the chosen type name. */
  datatype FileDialogAnswer = FileDialogAnswer(path: string, ok: bool, fileType: string)

  /** The reference the reference combobox asks for, given the active
      dataset as the SMLM store's getter returns it. */
  function ReferenceFor<L>(choice: string, active: Result<Option<L>>, dialog: FileDialogAnswer): (r: Result<Reference<L>>)
    ensures choice == "None" ==> r == Ok(NoReference)
    ensures choice == "SmlmData" && active == Ok(None) ==> r == Ok(NoReference)
    ensures choice == "SmlmData" && active.Ok? && active.value.Some? ==> r == Ok(LocdataReference(active.value.value))
    ensures choice == "File reference" && active == Ok(None) ==> r == Err(AttributeError)
    ensures choice == "File reference" && active.Ok? && active.value.Some? ==> r == Ok(MetaFileReference(active.value.value))
    ensures choice in {"SmlmData", "File reference"} && active.Err? ==> r == Err(active.error)
    ensures choice == "File dialog" ==>
      r == (if dialog.ok && dialog.fileType != "UNKNOWN_FILE_TYPE" then Ok(FilePathReference(dialog.path, dialog.fileType)) else Err(KeyError))
    ensures choice !in {"None", "SmlmData", "File reference", "File dialog"} ==> r == Err(ValueError)
  {
    if choice == "None" then Ok(NoReference)
    else if choice == "SmlmData" then
      match active
      case Err(e) => Err(e)
      case Ok(None) => Ok(NoReference)
      case Ok(Some(l)) => Ok(LocdataReference(l))
    else if choice == "File reference" then
      match active
      case Err(e) => Err(e)
      case Ok(None) => Err(AttributeError)
      case Ok(Some(l)) => Ok(MetaFileReference(l))
    else if choice == "File dialog" then
      if dialog.ok && dialog.fileType != "UNKNOWN_FILE_TYPE" then Ok(FilePathReference(dialog.path, dialog.fileType))
      else Err(KeyError)
    else Err(ValueError)
  }

  class RoiQWidget<R, L> {
    const regionSpecifications: DataModel<R>
    const roiSpecifications: DataModel<Roi<R, L>>
    const smlmData: SmlmData<L>

    /** The three stores are distinct objects and each keeps its invariant. */
    ghost predicate Valid()
      reads regionSpecifications, roiSpecifications, smlmData
    {
      && regionSpecifications as object != roiSpecifications as object
      && regionSpecifications as object != smlmData as object
      && roiSpecifications as object != smlmData as object
      && regionSpecifications.Valid() && roiSpecifications.Valid() && smlmData.Valid()
    }

    constructor (regions: DataModel<R>, rois: DataModel<Roi<R, L>>, smlm: SmlmData<L>)
      requires regions as object != rois as object && regions as object != smlm as object && rois as object != smlm as object
      requires regions.Valid() && rois.Valid() && smlm.Valid()
      ensures Valid()
      ensures regionSpecifications == regions && roiSpecifications == rois && smlmData == smlm
    {
      regionSpecifications, roiSpecifications, smlmData := regions, rois, smlm;
    }

    /** "Get regions from shapes": appends the regions in order, each named
        from the ROI store's counter plus one plus its position, and selects
        the last one. */
    method RegionsFromShapes(newRegions: seq<R>, repr: R -> string)
      requires Valid()
      modifies regionSpecifications
      ensures Valid()
      ensures regionSpecifications.datasets == old(regionSpecifications.datasets) + newRegions
      ensures regionSpecifications.names
           == old(regionSpecifications.names) + RegionNames(roiSpecifications.count + 1, newRegions, repr)
      ensures regionSpecifications.index
           == (if newRegions == [] then old(regionSpecifications.index) else |regionSpecifications.datasets| - 1)
      ensures regionSpecifications.count == old(regionSpecifications.count) + |newRegions|
      ensures regionSpecifications.signals == old(regionSpecifications.signals)
        + AppendLog(old(regionSpecifications.datasets), old(regionSpecifications.names),
                    newRegions, RegionNames(roiSpecifications.count + 1, newRegions, repr), |newRegions|)
    {
      var names := RegionNames(roiSpecifications.count + 1, newRegions, repr);
      for k := 0 to |newRegions|
        invariant Valid()
        invariant regionSpecifications.datasets == old(regionSpecifications.datasets) + newRegions[..k]
        invariant regionSpecifications.names == old(regionSpecifications.names) + names[..k]
        invariant regionSpecifications.index
               == (if k == 0 then old(regionSpecifications.index) else |regionSpecifications.datasets| - 1)
        invariant regionSpecifications.count == old(regionSpecifications.count) + k
        invariant regionSpecifications.signals
               == old(regionSpecifications.signals)
                  + AppendLog(old(regionSpecifications.datasets), old(regionSpecifications.names), newRegions, names, k)
      {
        var res := regionSpecifications.AppendItem(Some(newRegions[k]), Some(names[k]), true);
        assert newRegions[..k + 1] == newRegions[..k] + [newRegions[k]];
        assert names[..k + 1] == names[..k] + [names[k]];
      }
      assert newRegions[..|newRegions|] == newRegions;
      assert names[..|names|] == names;
    }

    /** "Get region from SMLM data": without an active dataset it raises
        (ValueError, or the getter's IndexError); otherwise the region the
        dialog produced, if any, is appended and selected under the name
        `{ROI counter + 1}-{repr prefix}`. */
    method RegionFromSmlmData(newRegion: Option<R>, repr: R -> string) returns (res: Outcome)
      requires Valid()
      modifies regionSpecifications
      ensures Valid()
      ensures res == (match smlmData.Locdata()
                      case Err(e) => Fail(e)
                      case Ok(None) => Fail(ValueError)
                      case Ok(Some(_)) => Pass)
      ensures res.Fail? || newRegion.None? ==> unchanged(regionSpecifications)
      ensures res.Pass? && newRegion.Some? ==>
        && regionSpecifications.datasets == old(regionSpecifications.datasets) + [newRegion.value]
        && regionSpecifications.names
           == old(regionSpecifications.names) + [RegionName(roiSpecifications.count + 1, repr(newRegion.value))]
        && regionSpecifications.index == |regionSpecifications.datasets| - 1
        && regionSpecifications.count == old(regionSpecifications.count) + 1
        && regionSpecifications.signals == old(regionSpecifications.signals)
           + [ItemsChanged(regionSpecifications.datasets), NamesChanged(regionSpecifications.names),
              IndexChanged(regionSpecifications.index)]
    {
      match smlmData.Locdata()
      case Err(e) =>
        return Fail(e);
      case Ok(None) =>
        return Fail(ValueError);
      case Ok(Some(_)) =>
        if newRegion.Some? {
          var name := RegionName(roiSpecifications.count + 1, repr(newRegion.value));
          var appended := regionSpecifications.AppendItem(newRegion, Some(name), true);
        }
        return Pass;
    }

    /** "Delete region": the region store's `delete_item`. */
    method DeleteRegion() returns (res: Outcome)
      requires Valid()
      modifies regionSpecifications
      ensures res == (if Position(old(|regionSpecifications.datasets|), old(regionSpecifications.index)).None? then Fail(IndexError) else Pass)
      ensures regionSpecifications.Valid()
      ensures res.Pass? ==>
        && var p := Position(old(|regionSpecifications.datasets|), old(regionSpecifications.index)).value;
        && regionSpecifications.datasets == RemoveAt(old(regionSpecifications.datasets), p)
        && regionSpecifications.names == RemoveAt(old(regionSpecifications.names), p)
        && regionSpecifications.index == CursorAfterDelete(|regionSpecifications.datasets|, old(regionSpecifications.index))
        && regionSpecifications.count == old(regionSpecifications.count)
        && regionSpecifications.signals == old(regionSpecifications.signals)
           + [NamesChanged(regionSpecifications.names), IndexChanged(regionSpecifications.index)]
      ensures res.Fail? ==> unchanged(regionSpecifications)
      ensures Valid()
    {
      res := regionSpecifications.DeleteItem();
    }

    /** "Delete all regions": empties the region store once confirmed. */
    method DeleteAllRegions(confirmed: bool)
      requires Valid()
      modifies regionSpecifications
      ensures Valid()
      ensures confirmed ==>
        regionSpecifications.datasets == [] && regionSpecifications.names == [] && regionSpecifications.index == -1
      ensures confirmed ==> regionSpecifications.count == old(regionSpecifications.count)
      ensures confirmed ==> regionSpecifications.signals == old(regionSpecifications.signals) + [NamesChanged([]), IndexChanged(-1)]
      ensures !confirmed ==> unchanged(regionSpecifications)
    {
      if confirmed {
        regionSpecifications.DeleteAll();
      }
    }

    /** "Create ROI": needs an active region (LookupError otherwise, or the
        getter's IndexError); builds the reference the combobox asks for and
        appends `Roi(reference, region, [x, y])` as `roi_{counter + 1}`,
        selecting it. */
    method CreateRoi(choice: string, dialog: FileDialogAnswer, xProperty: string, yProperty: string) returns (res: Outcome)
      requires Valid()
      modifies roiSpecifications
      ensures Valid()
      ensures regionSpecifications.Dataset().Err? ==> res == Fail(regionSpecifications.Dataset().error)
      ensures regionSpecifications.Dataset() == Ok(None) ==> res == Fail(LookupError)
      ensures regionSpecifications.Dataset().Ok? && regionSpecifications.Dataset().value.Some? ==>
        res == (match ReferenceFor(choice, smlmData.Locdata(), dialog)
                case Err(e) => Fail(e)
                case Ok(_) => Pass)
      ensures res.Fail? ==> unchanged(roiSpecifications)
      ensures res.Pass? ==>
        && var reference := ReferenceFor(choice, smlmData.Locdata(), dialog).value;
        && var region := regionSpecifications.Dataset().value.value;
        && roiSpecifications.datasets == old(roiSpecifications.datasets) + [Roi(reference, region, [xProperty, yProperty])]
        && roiSpecifications.names == old(roiSpecifications.names) + [RoiName(old(roiSpecifications.count) + 1)]
        && roiSpecifications.index == |roiSpecifications.datasets| - 1
        && roiSpecifications.count == old(roiSpecifications.count) + 1
        && roiSpecifications.signals == old(roiSpecifications.signals)
           + [ItemsChanged(roiSpecifications.datasets), NamesChanged(roiSpecifications.names),
              IndexChanged(roiSpecifications.index)]
    {
      match regionSpecifications.Dataset()
      case Err(e) =>
        return Fail(e);
      case Ok(None) =>
        return Fail(LookupError);
      case Ok(Some(region)) =>
        match ReferenceFor(choice, smlmData.Locdata(), dialog)
        case Err(e) =>
          return Fail(e);
        case Ok(reference) =>
          var roi := Roi(reference, region, [xProperty, yProperty]);
          var appended := roiSpecifications.AppendItem(Some(roi), Some(RoiName(roiSpecifications.count + 1)), true);
          return Pass;
    }

    /** "Load ROI": appends the ROI read from file as `roi_{counter + 1}`
        and selects it. */
    method LoadRoi(loaded: Roi<R, L>)
      requires Valid()
      modifies roiSpecifications
      ensures Valid()
      ensures roiSpecifications.datasets == old(roiSpecifications.datasets) + [loaded]
      ensures roiSpecifications.names == old(roiSpecifications.names) + [RoiName(old(roiSpecifications.count) + 1)]
      ensures roiSpecifications.index == |roiSpecifications.datasets| - 1
      ensures roiSpecifications.count == old(roiSpecifications.count) + 1
      ensures roiSpecifications.signals == old(roiSpecifications.signals)
        + [ItemsChanged(roiSpecifications.datasets), NamesChanged(roiSpecifications.names),
           IndexChanged(roiSpecifications.index)]
    {
      var appended := roiSpecifications.AppendItem(Some(loaded), Some(RoiName(roiSpecifications.count + 1)), true);
    }

    /** "Apply ROI": needs an active ROI (KeyError otherwise); the dataset
        the ROI selects (`roi.locdata()`, a parameter here, which may raise)
        is appended to the SMLM store under `{identifier}-{ROI text}`
        without moving its cursor. The ROI text is the ROI combobox's current
        text, `roiText` here; the widget's synchronisation slots keep it equal
        to the ROI store's active name. */
    method ApplyRoi(select: Roi<R, L> -> Result<L>, identifier: L -> string, roiText: string) returns (res: Outcome)
      requires Valid()
      modifies smlmData
      ensures Valid()
      ensures roiSpecifications.Dataset().Err? ==> res == Fail(roiSpecifications.Dataset().error)
      ensures roiSpecifications.Dataset() == Ok(None) ==> res == Fail(KeyError)
      ensures roiSpecifications.Dataset().Ok? && roiSpecifications.Dataset().value.Some? ==>
        res == (match select(roiSpecifications.Dataset().value.value)
                case Err(e) => Fail(e)
                case Ok(_) => Pass)
      ensures res.Fail? ==> unchanged(smlmData)
      ensures res.Pass? ==>
        && var locdata := select(roiSpecifications.Dataset().value.value).value;
        && smlmData.locdatas == old(smlmData.locdatas) + [locdata]
        && smlmData.locdataNames == old(smlmData.locdataNames) + [identifier(locdata) + "-" + roiText]
        && smlmData.index == old(smlmData.index)
        && smlmData.signals == old(smlmData.signals) + [NamesChanged(smlmData.locdataNames), IndexChanged(smlmData.index)]
    {
      match roiSpecifications.Dataset()
      case Err(e) =>
        return Fail(e);
      case Ok(None) =>
        return Fail(KeyError);
      case Ok(Some(roi)) =>
        match select(roi)
        case Err(e) =>
          return Fail(e);
        case Ok(locdata) =>
          var appended := smlmData.AppendItem(Some(locdata), Some(identifier(locdata) + "-" + roiText), false, identifier);
          return Pass;
    }

    /** "Delete ROI": the ROI store's `delete_item`. */
    method DeleteRoi() returns (res: Outcome)
      requires Valid()
      modifies roiSpecifications
      ensures res == (if Position(old(|roiSpecifications.datasets|), old(roiSpecifications.index)).None? then Fail(IndexError) else Pass)
      ensures res.Pass? ==>
        && var p := Position(old(|roiSpecifications.datasets|), old(roiSpecifications.index)).value;
        && roiSpecifications.datasets == RemoveAt(old(roiSpecifications.datasets), p)
        && roiSpecifications.names == RemoveAt(old(roiSpecifications.names), p)
        && roiSpecifications.index == CursorAfterDelete(|roiSpecifications.datasets|, old(roiSpecifications.index))
        && roiSpecifications.count == old(roiSpecifications.count)
        && roiSpecifications.signals == old(roiSpecifications.signals)
           + [NamesChanged(roiSpecifications.names), IndexChanged(roiSpecifications.index)]
      ensures res.Fail? ==> unchanged(roiSpecifications)
      ensures Valid()
    {
      res := roiSpecifications.DeleteItem();
    }

    /** "Delete all ROIs": empties the ROI store once confirmed; its counter
        keeps its value, so later ROI names do not repeat earlier ones. */
    method DeleteAllRois(confirmed: bool)
      requires Valid()
      modifies roiSpecifications
      ensures Valid()
      ensures confirmed ==>
        roiSpecifications.datasets == [] && roiSpecifications.names == [] && roiSpecifications.index == -1
      ensures roiSpecifications.count == old(roiSpecifications.count)
      ensures confirmed ==> roiSpecifications.signals == old(roiSpecifications.signals) + [NamesChanged([]), IndexChanged(-1)]
      ensures !confirmed ==> unchanged(roiSpecifications)
    {
      if confirmed {
        roiSpecifications.DeleteAll();
      }
    }
  }
}
