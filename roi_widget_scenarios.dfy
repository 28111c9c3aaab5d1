/** Client runs of the ROI widget's handlers: the situations the widget's
    tests describe, derived from the handlers' contracts alone. Regions are
    represented by their `repr` text here. */
module RoiWidgetScenarios {
  import opened Builtins
  import opened DataModelBase
  import opened SmlmDataModel
  import opened RoiSpecifications
  import opened RoiWidget

  /** Regions here are their own `repr` text. */
  function ShapeText(s: string): string { s }

  /** Proof step of `RepeatedShapesRun`: the name list of one shape taken
      on its own. */
  lemma OneShapeNames(first: nat, shape: string)
    ensures RegionNames(first, [shape], ShapeText) == [RegionName(first, shape)]
  {
  }

  /** A widget over empty region and ROI stores and an SMLM store holding one dataset. */
  method NewWidget<L>(locdata: L, identifier: L -> string) returns (w: RoiQWidget<string, L>)
    ensures fresh(w) && fresh(w.regionSpecifications) && fresh(w.roiSpecifications) && fresh(w.smlmData)
    ensures w.Valid()
    ensures w.regionSpecifications.datasets == [] && w.regionSpecifications.index == -1
    ensures w.roiSpecifications.datasets == [] && w.roiSpecifications.index == -1 && w.roiSpecifications.count == 0
    ensures w.smlmData.locdatas == [locdata] && w.smlmData.index == 0
  {
    var regions := DataModel<string>.Create(None, None);
    var rois := DataModel<Roi<string, L>>.Create(None, None);
    var smlm := SmlmData<L>.Create(Some([locdata]), None, identifier);
    w := new RoiQWidget(regions.value, rois.value, smlm.value);
  }

  /** The same widget after one drawn rectangle was taken as a region. */
  method RegionWidget<L>(locdata: L, identifier: L -> string) returns (w: RoiQWidget<string, L>)
    ensures fresh(w) && fresh(w.regionSpecifications) && fresh(w.roiSpecifications) && fresh(w.smlmData)
    ensures w.Valid()
    ensures w.regionSpecifications.Dataset() == Ok(Some("Rectangle(a)"))
    ensures w.roiSpecifications.datasets == [] && w.roiSpecifications.index == -1 && w.roiSpecifications.count == 0
    ensures w.smlmData.locdatas == [locdata] && w.smlmData.index == 0 && w.smlmData.Locdata() == Ok(Some(locdata))
  {
    w := NewWidget(locdata, identifier);
    w.RegionsFromShapes(["Rectangle(a)"], ShapeText);
  }

  /** The shape text before its parameters. */
  lemma PolygonPrefix()
    ensures BeforeFirst("Polygon(c)", '(') == "Polygon"
  {
    BeforeFirstOfPrefix("Polygon", '(', "c)");
    assert "Polygon" + ['('] + "c)" == "Polygon(c)";
  }

  /** Proof step of the runs below: the decimal texts of the small numbers
      they use, evaluated once. */
  lemma SmallNumerals()
    ensures NatToString(1) == "1" && NatToString(2) == "2" && NatToString(3) == "3" && NatToString(5) == "5"
  {
  }

  /** Proof step of `PolygonNames`: its literal concatenations. */
  lemma PolygonTexts()
    ensures "1" + "-" + "Polygon" == "1-Polygon" && "3" + "-" + "Polygon" == "3-Polygon"
  {
  }

  /** The names a "Polygon(c)" shape gets under the identifiers 1 and 3. */
  lemma PolygonNames()
    ensures RegionName(1, "Polygon(c)") == "1-Polygon"
    ensures RegionName(3, "Polygon(c)") == "3-Polygon"
  {
    PolygonPrefix();
    SmallNumerals();
    PolygonTexts();
  }

  /** Proof step of `RoiNames`: its literal concatenations. */
  lemma RoiTexts()
    ensures "roi_" + "1" == "roi_1" && "roi_" + "2" == "roi_2" && "roi_" + "3" == "roi_3" && "roi_" + "5" == "roi_5"
  {
  }

  /** The names of the first ROIs. */
  lemma RoiNames()
    ensures RoiName(1) == "roi_1" && RoiName(2) == "roi_2" && RoiName(3) == "roi_3"
    ensures RoiName(5) == "roi_5"
  {
    SmallNumerals();
    RoiTexts();
  }

  /** A widget after three drawn shapes were taken as regions. */
  method ShapesWidget<L>(locdata: L, identifier: L -> string, a: string, b: string, c: string) returns (w: RoiQWidget<string, L>)
    ensures fresh(w) && fresh(w.regionSpecifications) && fresh(w.roiSpecifications) && fresh(w.smlmData)
    ensures w.Valid()
    ensures w.regionSpecifications.datasets == [a, b, c] && w.regionSpecifications.index == 2
    ensures w.regionSpecifications.names == [RegionName(1, a), RegionName(2, b), RegionName(3, c)]
  {
    w := NewWidget(locdata, identifier);
    w.RegionsFromShapes([a, b, c], ShapeText);
  }

  /** Three drawn shapes become regions named after their identifiers 1, 2
      and 3 (for a "Polygon(c)" third, "3-Polygon") with the last selected;
      deleting it leaves the first two with the second selected. */
  method ShapesRun<L>(locdata: L, identifier: L -> string, a: string, b: string, c: string)
    returns (size: nat, index: int, name: Result<string>, after: (seq<string>, int))
    ensures size == 3 && index == 2 && name == Ok(RegionName(3, c))
    ensures after == ([RegionName(1, a), RegionName(2, b)], 1)
  {
    var w := ShapesWidget(locdata, identifier, a, b, c);
    size, index, name := |w.regionSpecifications.datasets|, w.regionSpecifications.index, w.regionSpecifications.Name();
    var names := w.regionSpecifications.names;
    var res := w.DeleteRegion();
    assert w.regionSpecifications.names == names[..2] == [RegionName(1, a), RegionName(2, b)];
    after := (w.regionSpecifications.names, w.regionSpecifications.index);
  }

  /** Region identifiers come from the ROI counter, not the region store: two
      takes of the same shape with no ROI created in between are both
      numbered 1, so the region store then holds the same name twice (for a
      "Polygon(c)", "1-Polygon"). */
  method RepeatedShapesRun<L>(locdata: L, identifier: L -> string, shape: string) returns (names: seq<string>)
    ensures names == [RegionName(1, shape), RegionName(1, shape)]
  {
    var w := NewWidget(locdata, identifier);
    OneShapeNames(1, shape);
    w.RegionsFromShapes([shape], ShapeText);
    w.RegionsFromShapes([shape], ShapeText);
    names := w.regionSpecifications.names;
  }

  /** ROIs created from the one region: with no reference, with the active
      dataset and with its file metadata; they are named "roi_1".."roi_3",
      the newest is selected, and an unknown choice raises ValueError. */
  method CreateRoiRun<L>(locdata: L, identifier: L -> string, dialog: FileDialogAnswer)
    returns (references: seq<Reference<L>>, names: seq<string>, index: int, unknown: Outcome)
    ensures references == [NoReference, LocdataReference(locdata), MetaFileReference(locdata)]
    ensures names == ["roi_1", "roi_2", "roi_3"] && index == 2
    ensures unknown == Fail(ValueError)
  {
    var w := RegionWidget(locdata, identifier);
    var res := w.CreateRoi("None", dialog, "position_x", "position_y");
    assert |w.roiSpecifications.datasets| == 1 && w.roiSpecifications.count == 1;
    var r0 := w.roiSpecifications.datasets[0].reference;
    var n0 := w.roiSpecifications.names[0];
    res := w.CreateRoi("SmlmData", dialog, "position_x", "position_y");
    assert |w.roiSpecifications.datasets| == 2 && w.roiSpecifications.count == 2;
    var r1 := w.roiSpecifications.datasets[1].reference;
    var n1 := w.roiSpecifications.names[1];
    res := w.CreateRoi("File reference", dialog, "position_x", "position_y");
    assert |w.roiSpecifications.datasets| == 3 && w.roiSpecifications.count == 3;
    references := [r0, r1, w.roiSpecifications.datasets[2].reference];
    assert n0 == RoiName(1) && n1 == RoiName(2) && w.roiSpecifications.names[2] == RoiName(3);
    RoiNames();
    names, index := [n0, n1, w.roiSpecifications.names[2]], w.roiSpecifications.index;
    unknown := w.CreateRoi("Bogus", dialog, "position_x", "position_y");
  }

  /** Creating a ROI needs an active region. */
  method CreateWithoutRegionRun<L>(locdata: L, identifier: L -> string, dialog: FileDialogAnswer)
    returns (res: Outcome, size: nat)
    ensures res == Fail(LookupError) && size == 0
  {
    var w := NewWidget(locdata, identifier);
    res := w.CreateRoi("None", dialog, "position_x", "position_y");
    size := |w.roiSpecifications.datasets|;
  }

  /** Applying a ROI without reference fails and adds nothing; one that
      refers to the active dataset adds its selection to the SMLM store
      without moving the SMLM cursor. */
  method ApplyRoiRun<L>(locdata: L, selection: L, identifier: L -> string, select: Roi<string, L> -> Result<L>, dialog: FileDialogAnswer)
    returns (unreferenced: Outcome, sizeBefore: nat, applied: Outcome, sizeAfter: nat, smlmIndex: int, newName: string)
    requires forall region, props :: select(Roi(NoReference, region, props)) == Err(AttributeError)
    requires forall region, props :: select(Roi(LocdataReference(locdata), region, props)) == Ok(selection)
    ensures unreferenced == Fail(AttributeError) && sizeBefore == 1
    ensures applied == Pass && sizeAfter == 2 && smlmIndex == 0
    ensures newName == identifier(selection) + "-" + "roi_2"
  {
    var w := RegionWidget(locdata, identifier);
    var res := w.CreateRoi("None", dialog, "position_x", "position_y");
    assert w.roiSpecifications.Dataset() == Ok(Some(Roi(NoReference, "Rectangle(a)", ["position_x", "position_y"])));
    unreferenced := w.ApplyRoi(select, identifier, "roi_1");
    sizeBefore := |w.smlmData.locdatas|;
    res := w.CreateRoi("SmlmData", dialog, "position_x", "position_y");
    assert w.roiSpecifications.Dataset() == Ok(Some(Roi(LocdataReference(locdata), "Rectangle(a)", ["position_x", "position_y"])));
    applied := w.ApplyRoi(select, identifier, "roi_2");
    sizeAfter, smlmIndex, newName := |w.smlmData.locdatas|, w.smlmData.index, w.smlmData.locdataNames[1];
  }

  /** Applying needs an active ROI. */
  method ApplyWithoutRoiRun<L>(locdata: L, identifier: L -> string, select: Roi<string, L> -> Result<L>)
    returns (res: Outcome, size: nat)
    ensures res == Fail(KeyError) && size == 1
  {
    var w := NewWidget(locdata, identifier);
    res := w.ApplyRoi(select, identifier, "");
    size := |w.smlmData.locdatas|;
  }

  /** Two ROIs without reference created from the active region. */
  method CreateTwoRois<L>(w: RoiQWidget<string, L>, dialog: FileDialogAnswer)
    requires w.Valid() && w.regionSpecifications.Dataset() == Ok(Some("Rectangle(a)"))
    modifies w.roiSpecifications
    ensures w.Valid() && w.regionSpecifications.Dataset() == Ok(Some("Rectangle(a)"))
    ensures |w.roiSpecifications.datasets| == old(|w.roiSpecifications.datasets|) + 2
    ensures w.roiSpecifications.index == |w.roiSpecifications.datasets| - 1
    ensures w.roiSpecifications.count == old(w.roiSpecifications.count) + 2
  {
    var res := w.CreateRoi("None", dialog, "position_x", "position_y");
    res := w.CreateRoi("None", dialog, "position_x", "position_y");
  }

  /** Deleting the last of four ROIs selects the new last; the counter
      stays, so the next ROI is "roi_5". */
  method DeleteRoiRun<L>(locdata: L, identifier: L -> string, dialog: FileDialogAnswer)
    returns (size: nat, index: int, nextName: string)
    ensures size == 3 && index == 2 && nextName == "roi_5"
  {
    var w := RegionWidget(locdata, identifier);
    CreateTwoRois(w, dialog);
    CreateTwoRois(w, dialog);
    var res := w.DeleteRoi();
    size, index := |w.roiSpecifications.datasets|, w.roiSpecifications.index;
    res := w.CreateRoi("None", dialog, "position_x", "position_y");
    RoiNames();
    nextName := w.roiSpecifications.names[3];
  }
}
