/** The configuration builder as a value: the state it accumulates, one
    transition per operation, the configuration it renders, and what holds of
    any sequence of operations. The class in ConfigBuilder is proved to follow
    these transitions step by step. */
module ConfigModel {
  import opened Props
  import opened Cursors

  /** The builder's state. `axisKeys` lists the keys of `axes` in the order
      they were first added; `created` records, per axis key, the placement
      the axis was given when it was created (bookkeeping for the proofs: a
      later merge may change the stored placement). */
  datatype Builder = Builder(
    axisKeys: seq<string>,
    axes: map<string, AxisProps>,
    scales: seq<ScaleProps>,
    series: seq<SeriesProps>,
    cursor: Option<Cursor>,
    hasLeftAxis: bool,
    created: map<string, AxisPlacement>)

  /** A newly constructed builder. */
  const Fresh := Builder([], map[], [], [], None, false, map[])

  /** One entry of the rendered series list: the empty object in slot 0, or a rendered series. */
  datatype PlotSeries = Placeholder | Series(props: SeriesProps)

  /** The configuration handed to the rendering engine. */
  datatype PlotConfig = PlotConfig(
    series: seq<PlotSeries>,
    axes: seq<AxisProps>,
    scales: map<string, ScaleProps>,
    cursor: Cursor)

  ghost predicate UniqueKeys(keys: seq<string>) {
    forall i, j :: 0 <= i < j < |keys| ==> keys[i] != keys[j]
  }

  function ScaleKeys(scales: seq<ScaleProps>): (keys: seq<string>)
    ensures |keys| == |scales|
    ensures forall i :: 0 <= i < |scales| ==> keys[i] == scales[i].scaleKey
  {
    seq(|scales|, i requires 0 <= i < |scales| => scales[i].scaleKey)
  }

  /** The part of the invariant about axes, kept whatever the merges do: the
      key order lists each axis key exactly once, no axis was created with
      placement Auto, and `hasLeftAxis` says whether some axis was created on
      the left. */
  ghost predicate AxesWellFormed(b: Builder) {
    && UniqueKeys(b.axisKeys)
    && (forall k :: k in b.axes <==> k in b.axisKeys)
    && b.created.Keys == b.axes.Keys
    && Auto !in b.created.Values
    && (b.hasLeftAxis <==> Left in b.created.Values)
  }

  /** The invariant every reachable builder state keeps: the axis part, and at
      most one scale per key. */
  ghost predicate WellFormed(b: Builder) {
    AxesWellFormed(b) && UniqueKeys(ScaleKeys(b.scales))
  }

  /** An unset placement means Auto. */
  function WithPlacementDefault(props: AxisProps): (p: AxisProps)
    ensures p.placement.Some?
    ensures props.placement.None? ==> p.placement == Some(Auto)
    ensures props.placement.Some? ==> p.placement == props.placement
    ensures p.(placement := props.placement) == props
  {
    props.(placement := Some(props.placement.GetOr(Auto)))
  }

  /** The side a new axis takes: an Auto request goes Left until some axis is on the left, Right after. */
  function ResolvePlacement(requested: AxisPlacement, hasLeftAxis: bool): (side: AxisPlacement)
    ensures side != Auto
    ensures requested != Auto ==> side == requested
    ensures requested == Auto ==> (side == Left <==> !hasLeftAxis) && (side == Right <==> hasLeftAxis)
  {
    if requested == Auto then (if hasLeftAxis then Right else Left) else requested
  }

  /** The stored properties of a new axis placed at `side`; a hidden axis is not shown and takes no room. */
  function NewAxis(p: AxisProps, side: AxisPlacement): (a: AxisProps)
    ensures a.placement == Some(side)
    ensures side == Hidden ==> a.show == Some(false) && a.size == Some(0)
    ensures side != Hidden ==> a.show == p.show && a.size == p.size
    ensures a.(placement := p.placement, show := p.show, size := p.size) == p
  {
    if side == Hidden then p.(placement := Some(Hidden), show := Some(false), size := Some(0))
    else p.(placement := Some(side))
  }

  /** addAxis: an update for a key that has an axis is merged into it and
      nothing else changes; otherwise a new axis is created at the side its
      placement resolves to, hidden axes are forced invisible and sizeless, and
      `hasLeftAxis` is raised when the new axis is on the left. */
  function AddAxis(b: Builder, props: AxisProps, merge: AxisMerge): (r: Builder)
    ensures r.scales == b.scales && r.series == b.series && r.cursor == b.cursor
  {
    var p := WithPlacementDefault(props);
    var k := p.scaleKey;
    if k in b.axes then
      b.(axes := b.axes[k := merge(b.axes[k], p)])
    else
      var side := ResolvePlacement(p.placement.value, b.hasLeftAxis);
      b.(axisKeys := b.axisKeys + [k],
         axes := b.axes[k := NewAxis(p, side)],
         hasLeftAxis := b.hasLeftAxis || side == Left,
         created := b.created[k := side])
  }

  lemma ValuesOfNewKey<K, V>(m: map<K, V>, k: K, v: V)
    requires k !in m
    ensures m[k := v].Values == m.Values + {v}
  {
    var m' := m[k := v];
    forall x | x in m'.Values ensures x in m.Values + {v} {
      var j :| j in m' && m'[j] == x;
      if j != k { assert m[j] == x; }
    }
    forall x | x in m.Values ensures x in m'.Values {
      var j :| j in m && m[j] == x;
      assert m'[j] == x;
    }
    assert m'[k] == v;
  }

  /** The index of the first scale with key `key`, or -1 when there is none. */
  function IndexOfScale(scales: seq<ScaleProps>, key: string): (i: int)
    ensures -1 <= i < |scales|
    ensures 0 <= i ==> scales[i].scaleKey == key
    ensures forall j :: 0 <= j < |scales| && (i == -1 || j < i) ==> scales[j].scaleKey != key
  {
    if scales == [] then -1
    else if scales[0].scaleKey == key then 0
    else
      var i := IndexOfScale(scales[1..], key);
      if i == -1 then -1 else i + 1
  }

  /** addScale: an update for a key that has a scale is merged into that
      scale in place; otherwise the scale is appended. */
  function AddScale(b: Builder, props: ScaleProps, merge: ScaleMerge): (r: Builder)
    ensures props.scaleKey in ScaleKeys(b.scales) ==> |r.scales| == |b.scales|
    ensures props.scaleKey in ScaleKeys(b.scales) && KeepsScaleKey(merge) ==> ScaleKeys(r.scales) == ScaleKeys(b.scales)
    ensures props.scaleKey in ScaleKeys(b.scales) ==>
      exists i :: 0 <= i < |b.scales| && b.scales[i].scaleKey == props.scaleKey
        && r.scales == b.scales[i := merge(b.scales[i], props)]
    ensures props.scaleKey !in ScaleKeys(b.scales) ==> r.scales == b.scales + [props]
    ensures r.axisKeys == b.axisKeys && r.axes == b.axes && r.created == b.created
    ensures r.hasLeftAxis == b.hasLeftAxis && r.series == b.series && r.cursor == b.cursor
  {
    var i := IndexOfScale(b.scales, props.scaleKey);
    if 0 <= i then
      b.(scales := b.scales[i := merge(b.scales[i], props)])
    else
      b.(scales := b.scales + [props])
  }

  /** addSeries: the series is appended; series are never merged. */
  function AddSeries(b: Builder, props: SeriesProps): (r: Builder)
    ensures |r.series| == |b.series| + 1 && r.series[..|b.series|] == b.series && r.series[|b.series|] == props
    ensures r.(series := b.series) == b
  {
    b.(series := b.series + [props])
  }

  /** setCursor: the stored cursor is replaced, an unset one included. */
  function SetCursor(b: Builder, cursor: Option<Cursor>): (r: Builder)
    ensures r.cursor == cursor
    ensures r.(cursor := b.cursor) == b
  {
    b.(cursor := cursor)
  }

  /** The axes in the order of `keys`, skipping keys that have no axis. */
  function AxesInOrder(keys: seq<string>, axes: map<string, AxisProps>): (r: seq<AxisProps>)
    ensures |r| <= |keys|
    ensures (forall k :: k in keys ==> k in axes) ==> |r| == |keys| && forall i :: 0 <= i < |keys| ==> r[i] == axes[keys[i]]
  {
    if keys == [] then []
    else (if keys[0] in axes then [axes[keys[0]]] else []) + AxesInOrder(keys[1..], axes)
  }

  function RenderSeries(series: seq<SeriesProps>): (r: seq<PlotSeries>)
    ensures |r| == |series|
    ensures forall i :: 0 <= i < |series| ==> r[i] == Series(series[i])
  {
    seq(|series|, i requires 0 <= i < |series| => Series(series[i]))
  }

  /** The scales folded left into one mapping from key to scale. */
  function ScaleMap(scales: seq<ScaleProps>): (m: map<string, ScaleProps>)
    ensures forall k :: k in m <==> k in ScaleKeys(scales)
    ensures UniqueKeys(ScaleKeys(scales)) ==> forall i :: 0 <= i < |scales| ==> m[scales[i].scaleKey] == scales[i]
  {
    if scales == [] then map[]
    else
      var init := scales[..|scales| - 1];
      var last := scales[|scales| - 1];
      assert ScaleKeys(scales) == ScaleKeys(init) + [last.scaleKey];
      ScaleMap(init)[last.scaleKey := last]
  }

  /** The configuration rendered from the current state. */
  function Config(b: Builder): (c: PlotConfig)
    ensures |c.series| == |b.series| + 1 && c.series[0] == Placeholder
    ensures forall i :: 0 <= i < |b.series| ==> c.series[i + 1] == Series(b.series[i])
    ensures WellFormed(b) ==> |c.axes| == |b.axisKeys| && forall i :: 0 <= i < |b.axisKeys| ==> c.axes[i] == b.axes[b.axisKeys[i]]
    ensures WellFormed(b) ==> c.scales.Keys == set s | s in b.scales :: s.scaleKey
    ensures WellFormed(b) ==> forall i :: 0 <= i < |b.scales| ==> c.scales[b.scales[i].scaleKey] == b.scales[i]
    ensures c.cursor == WithDefaults(b.cursor.GetOr(EmptyCursor))
  {
    PlotConfig([Placeholder] + RenderSeries(b.series), AxesInOrder(b.axisKeys, b.axes), ScaleMap(b.scales),
               WithDefaults(b.cursor.GetOr(EmptyCursor)))
  }

  /** The state after rendering: a stored cursor has been filled with the defaults in place. */
  function AfterGetConfig(b: Builder): (r: Builder)
    ensures r.(cursor := b.cursor) == b
    ensures b.cursor.None? ==> r.cursor.None?
    ensures b.cursor.Some? ==> r.cursor == Some(WithDefaults(b.cursor.value))
  {
    if b.cursor.Some? then b.(cursor := Some(WithDefaults(b.cursor.value))) else b
  }

  /** One call on the builder. */
  datatype Op =
    | AddAxisOp(axis: AxisProps)
    | AddScaleOp(scale: ScaleProps)
    | AddSeriesOp(seriesProps: SeriesProps)
    | SetCursorOp(cursorSpec: Option<Cursor>)
    | GetConfigOp

  function Step(b: Builder, op: Op, mergeAxis: AxisMerge, mergeScale: ScaleMerge): Builder {
    match op
    case AddAxisOp(p) => AddAxis(b, p, mergeAxis)
    case AddScaleOp(p) => AddScale(b, p, mergeScale)
    case AddSeriesOp(p) => AddSeries(b, p)
    case SetCursorOp(c) => SetCursor(b, c)
    case GetConfigOp => AfterGetConfig(b)
  }

  /** The state after the calls `ops`, made in order on `b`. */
  function Run(b: Builder, ops: seq<Op>, mergeAxis: AxisMerge, mergeScale: ScaleMerge): Builder
    decreases |ops|
  {
    if ops == [] then b
    else Step(Run(b, ops[..|ops| - 1], mergeAxis, mergeScale), ops[|ops| - 1], mergeAxis, mergeScale)
  }
}
