/** The configuration builder as the mutable object callers use. Each method
    updates the fields in place and is proved to move the builder's state
    exactly as the matching transition of ConfigModel does, so everything
    proved there about sequences of calls holds of this object. */
module ConfigBuilder {
  import opened Props
  import opened Cursors
  import opened ConfigModel
  import opened ConfigProperties

  class UPlotConfigBuilder {
    /** The leaf builders' merge operations (their code is not part of this model). */
    const mergeAxis: AxisMerge
    const mergeScale: ScaleMerge

    var series: seq<SeriesProps>
    /** The axes by scale key; `axisKeys` keeps the order in which keys were first added. */
    var axes: map<string, AxisProps>
    var axisKeys: seq<string>
    var scales: seq<ScaleProps>
    var cursor: Option<Cursor>
    var hasLeftAxis: bool
    /** The placement each axis was given when it was created. */
    ghost var created: map<string, AxisPlacement>

    ghost function Model(): Builder
      reads this
    {
      Builder(axisKeys, axes, scales, series, cursor, hasLeftAxis, created)
    }

    ghost predicate Valid()
      reads this
    {
      WellFormed(Model()) && KeepsScaleKey(mergeScale)
    }

    constructor (mergeAxis: AxisMerge, mergeScale: ScaleMerge)
      requires KeepsScaleKey(mergeScale)
      ensures Valid() && Model() == Fresh
      ensures this.mergeAxis == mergeAxis && this.mergeScale == mergeScale
    {
      this.mergeAxis, this.mergeScale := mergeAxis, mergeScale;
      series, axes, axisKeys, scales := [], map[], [], [];
      cursor, hasLeftAxis := None, false;
      created := map[];
    }

    method AddAxis(props: AxisProps)
      requires Valid()
      modifies this
      ensures Valid()
      ensures Model() == ConfigModel.AddAxis(old(Model()), props, mergeAxis)
    {
      ghost var before := Model();
      var p := props.(placement := Some(props.placement.GetOr(Auto)));
      ghost var side := ResolvePlacement(p.placement.value, hasLeftAxis);
      if p.scaleKey in axes {
        axes := axes[p.scaleKey := mergeAxis(axes[p.scaleKey], p)];
        AddAxisKeepsAxesWellFormed(before, props, mergeAxis);
        return;
      }
      // auto placement: the left side first, the right side once the left is taken
      if p.placement == Some(Auto) {
        p := p.(placement := Some(if hasLeftAxis then Right else Left));
      }
      if p.placement == Some(Left) {
        hasLeftAxis := true;
      }
      if p.placement == Some(Hidden) {
        p := p.(show := Some(false), size := Some(0));
      }
      assert p == NewAxis(WithPlacementDefault(props), side);
      axes := axes[p.scaleKey := p];
      axisKeys := axisKeys + [p.scaleKey];
      created := created[p.scaleKey := p.placement.value];
      AddAxisKeepsAxesWellFormed(before, props, mergeAxis);
    }

    /** The placement of the axis for `scaleKey`; Left when there is no axis or it has no placement. */
    function GetAxisPlacement(scaleKey: string): (r: AxisPlacement)
      reads this
      ensures scaleKey in axes && axes[scaleKey].placement.Some? ==> r == axes[scaleKey].placement.value
      ensures scaleKey in axes && axes[scaleKey].placement.None? ==> r == Left
      ensures scaleKey !in axes ==> r == Left
      ensures Valid() && scaleKey in axes && axes[scaleKey].placement == Some(created[scaleKey]) ==> r != Auto
    {
      if scaleKey in axes && axes[scaleKey].placement.Some? then axes[scaleKey].placement.value else Left
    }

    method SetCursor(cursor: Option<Cursor>)
      requires Valid()
      modifies this
      ensures Valid()
      ensures Model() == ConfigModel.SetCursor(old(Model()), cursor)
    {
      this.cursor := cursor;
    }

    method AddSeries(props: SeriesProps)
      requires Valid()
      modifies this
      ensures Valid()
      ensures Model() == ConfigModel.AddSeries(old(Model()), props)
    {
      series := series + [props];
    }

    /** Adds the scale, or merges it into the first scale with the same key. */
    method AddScale(props: ScaleProps)
      requires Valid()
      modifies this
      ensures Valid()
      ensures Model() == ConfigModel.AddScale(old(Model()), props, mergeScale)
    {
      ghost var before := Model();
      var i := 0;
      while i < |scales| && scales[i].scaleKey != props.scaleKey
        invariant 0 <= i <= |scales|
        invariant forall j :: 0 <= j < i ==> scales[j].scaleKey != props.scaleKey
      {
        i := i + 1;
      }
      AddScaleKeepsWellFormed(before, props, mergeScale);
      if i < |scales| {
        scales := scales[i := mergeScale(scales[i], props)];
        return;
      }
      scales := scales + [props];
    }

    /** Renders the configuration. As a side effect a stored cursor is filled
        with the defaults in place; nothing else changes. */
    method GetConfig() returns (config: PlotConfig)
      requires Valid()
      modifies this
      ensures Valid()
      ensures config == Config(old(Model()))
      ensures Model() == AfterGetConfig(old(Model()))
    {
      var filled := WithDefaults(cursor.GetOr(EmptyCursor));
      if cursor.Some? {
        cursor := Some(filled);
      }
      config := PlotConfig([Placeholder] + RenderSeries(series), AxesInOrder(axisKeys, axes), ScaleMap(scales), filled);
    }
  }

  /** Three axes without a placement on a new builder land Left, Right, Right. */
  method AutoPlacementScenario()
  {
    ShallowMergeScaleKeepsKey();
    var builder := new UPlotConfigBuilder(ShallowMergeAxis, ShallowMergeScale);
    assert builder.GetAxisPlacement("x") == Left;  // no axis yet
    builder.AddAxis(AxisProps("x", None, None, None, None));
    assert builder.GetAxisPlacement("x") == Left;
    builder.AddAxis(AxisProps("y", None, None, None, None));
    assert builder.GetAxisPlacement("y") == Right;
    ghost var before := builder.Model();
    assert before.axes.Keys == {"x", "y"};
    var z := AxisProps("z", Some(Auto), None, None, None);
    builder.AddAxis(z);
    NewAutoAxisStep(before, z, builder.mergeAxis);
    assert builder.GetAxisPlacement("z") == Right;
  }

  /** A hidden axis is stored not shown and with size 0, whatever the caller asked. */
  method HiddenAxisScenario()
  {
    ShallowMergeScaleKeepsKey();
    var builder := new UPlotConfigBuilder(ShallowMergeAxis, ShallowMergeScale);
    builder.AddAxis(AxisProps("x", Some(Hidden), Some(true), Some(40), None));
    assert builder.axes["x"] == AxisProps("x", Some(Hidden), Some(false), Some(0), None);
    assert !builder.hasLeftAxis;
  }

  /** Rendering puts the empty placeholder before the series, in call order. */
  method SeriesRenderScenario()
  {
    ShallowMergeScaleKeepsKey();
    var builder := new UPlotConfigBuilder(ShallowMergeAxis, ShallowMergeScale);
    var s1 := SeriesProps("y", None, None, None);
    var s2 := SeriesProps("z", None, None, None);
    builder.AddSeries(s1);
    builder.AddSeries(s2);
    var config := builder.GetConfig();
    assert config.series == [Placeholder, Series(s1), Series(s2)];
  }

  /** Rendering keeps the caller's cursor fields and fills the rest with the
      defaults; rendering again gives the same configuration. */
  method CursorRenderScenario()
  {
    ShallowMergeScaleKeepsKey();
    var builder := new UPlotConfigBuilder(ShallowMergeAxis, ShallowMergeScale);
    builder.SetCursor(Some(Cursor(None, None, Some(Points(None, None, Some(CallerHook(99)), None, None)))));
    ghost var beforeRender := builder.Model();
    var config := builder.GetConfig();
    assert PointWidth(config.cursor) == Some(CallerHook(99));
    assert PointSize(config.cursor) == Some(PointSizeDefault);
    assert SetScale(config.cursor) == Some(false);
    var again := builder.GetConfig();
    GetConfigIdempotent(beforeRender);
    assert again == config;
  }
}
