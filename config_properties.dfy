/** What holds of the builder over whole sequences of calls. */
module ConfigProperties {
  import opened Props
  import opened Cursors
  import opened ConfigModel

  /** addAxis for a key that already has an axis merges the update into that
      axis and changes nothing else: no new key, no placement resolution, no
      change to `hasLeftAxis`. */
  lemma AddAxisMergePath(b: Builder, props: AxisProps, merge: AxisMerge)
    requires props.scaleKey in b.axes
    ensures var r := AddAxis(b, props, merge);
      && r.axes == b.axes[props.scaleKey := merge(b.axes[props.scaleKey], WithPlacementDefault(props))]
      && r.axisKeys == b.axisKeys && r.hasLeftAxis == b.hasLeftAxis && r.created == b.created
  {
  }

  /** addAxis for a new key appends the key and stores a new axis whose
      placement is resolved (never Auto), raising `hasLeftAxis` exactly when it
      lands on the left; a hidden axis is stored not shown and with size 0. */
  lemma AddAxisCreatePath(b: Builder, props: AxisProps, merge: AxisMerge)
    requires props.scaleKey !in b.axes
    ensures var r := AddAxis(b, props, merge);
      var k := props.scaleKey;
      && r.axisKeys == b.axisKeys + [k]
      && r.axes.Keys == b.axes.Keys + {k}
      && (forall j :: j in b.axes ==> r.axes[j] == b.axes[j])
      && k in r.created
      && r.created == b.created[k := r.created[k]]
      && r.axes[k].placement == Some(r.created[k])
      && r.created[k] != Auto
      && (props.placement.Some? && props.placement.value != Auto ==> r.created[k] == props.placement.value)
      && (props.placement.None? || props.placement == Some(Auto) ==>
            r.created[k] == (if b.hasLeftAxis then Right else Left))
      && r.hasLeftAxis == (b.hasLeftAxis || r.created[k] == Left)
      && r.axes[k].scaleKey == k
      && r.axes[k].labelText == props.labelText
      && (r.created[k] == Hidden ==> r.axes[k].show == Some(false) && r.axes[k].size == Some(0))
      && (r.created[k] != Hidden ==> r.axes[k].show == props.show && r.axes[k].size == props.size)
  {
  }

  /** addAxis keeps the axis part of the invariant, whatever the axis merge does. */
  lemma AddAxisKeepsAxesWellFormed(b: Builder, props: AxisProps, merge: AxisMerge)
    requires AxesWellFormed(b)
    ensures AxesWellFormed(AddAxis(b, props, merge))
  {
    var p := WithPlacementDefault(props);
    if p.scaleKey !in b.axes {
      ValuesOfNewKey(b.created, p.scaleKey, ResolvePlacement(p.placement.value, b.hasLeftAxis));
    }
  }

  lemma AddScaleKeepsWellFormed(b: Builder, props: ScaleProps, merge: ScaleMerge)
    requires WellFormed(b) && KeepsScaleKey(merge)
    ensures WellFormed(AddScale(b, props, merge))
  {
  }

  /** One call of any kind keeps the axis part of the invariant, whatever the merges do. */
  lemma StepKeepsAxesWellFormed(b: Builder, op: Op, mergeAxis: AxisMerge, mergeScale: ScaleMerge)
    requires AxesWellFormed(b)
    ensures AxesWellFormed(Step(b, op, mergeAxis, mergeScale))
  {
    match op
    case AddAxisOp(p) => AddAxisKeepsAxesWellFormed(b, p, mergeAxis);
    case _ =>
  }

  /** One call of any kind keeps the builder well formed. */
  lemma StepKeepsWellFormed(b: Builder, op: Op, mergeAxis: AxisMerge, mergeScale: ScaleMerge)
    requires WellFormed(b) && KeepsScaleKey(mergeScale)
    ensures WellFormed(Step(b, op, mergeAxis, mergeScale))
  {
    match op
    case AddAxisOp(p) => AddAxisKeepsAxesWellFormed(b, p, mergeAxis);
    case AddScaleOp(p) => AddScaleKeepsWellFormed(b, p, mergeScale);
    case _ =>
  }

  /** Every sequence of calls keeps the axis part of the invariant, for any
      axis and scale merge. */
  lemma {:induction false} RunKeepsAxesWellFormed(b: Builder, ops: seq<Op>, mergeAxis: AxisMerge, mergeScale: ScaleMerge)
    requires AxesWellFormed(b)
    ensures AxesWellFormed(Run(b, ops, mergeAxis, mergeScale))
    decreases |ops|
  {
    if ops != [] {
      RunKeepsAxesWellFormed(b, ops[..|ops| - 1], mergeAxis, mergeScale);
      StepKeepsAxesWellFormed(Run(b, ops[..|ops| - 1], mergeAxis, mergeScale), ops[|ops| - 1], mergeAxis, mergeScale);
    }
  }

  /** Every sequence of calls keeps the builder well formed: one axis and one
      scale per key, no axis created Auto, `hasLeftAxis` exactly when some
      axis was created on the left. */
  lemma {:induction false} RunPreservesWellFormed(b: Builder, ops: seq<Op>, mergeAxis: AxisMerge, mergeScale: ScaleMerge)
    requires WellFormed(b) && KeepsScaleKey(mergeScale)
    ensures WellFormed(Run(b, ops, mergeAxis, mergeScale))
    decreases |ops|
  {
    if ops != [] {
      RunPreservesWellFormed(b, ops[..|ops| - 1], mergeAxis, mergeScale);
      StepKeepsWellFormed(Run(b, ops[..|ops| - 1], mergeAxis, mergeScale), ops[|ops| - 1], mergeAxis, mergeScale);
    }
  }

  /** Once some axis is on the left, `hasLeftAxis` stays true whatever calls follow. */
  lemma {:induction false} HasLeftAxisNeverResets(b: Builder, ops: seq<Op>, mergeAxis: AxisMerge, mergeScale: ScaleMerge)
    requires b.hasLeftAxis
    ensures Run(b, ops, mergeAxis, mergeScale).hasLeftAxis
    decreases |ops|
  {
    if ops != [] {
      HasLeftAxisNeverResets(b, ops[..|ops| - 1], mergeAxis, mergeScale);
    }
  }

  /** One call appends at most to the axis keys and keeps every created placement. */
  lemma StepKeepsAxisOrder(b: Builder, op: Op, mergeAxis: AxisMerge, mergeScale: ScaleMerge)
    requires AxesWellFormed(b)
    ensures var r := Step(b, op, mergeAxis, mergeScale);
      && b.axisKeys <= r.axisKeys
      && forall k :: k in b.created ==> k in r.created && r.created[k] == b.created[k]
  {
    match op
    case AddAxisOp(p) =>
      var r := AddAxis(b, p, mergeAxis);
      if p.scaleKey in b.axes {
        AddAxisMergePath(b, p, mergeAxis);
      } else {
        AddAxisCreatePath(b, p, mergeAxis);
      }
    case _ =>
  }

  /** Axis keys are only ever appended, so the rendered axes follow the order
      in which each key was first added; this holds for any merges. The second
      half holds by construction, since `created` is written only when an axis
      is created; that a later call for the key does not re-resolve its
      placement is the content of AddAxisMergePath. */
  lemma {:induction false} AxisOrderAndCreatedPlacementStable(b: Builder, ops: seq<Op>, mergeAxis: AxisMerge, mergeScale: ScaleMerge)
    requires AxesWellFormed(b)
    ensures b.axisKeys <= Run(b, ops, mergeAxis, mergeScale).axisKeys
    ensures forall k :: k in b.created ==>
      k in Run(b, ops, mergeAxis, mergeScale).created && Run(b, ops, mergeAxis, mergeScale).created[k] == b.created[k]
    decreases |ops|
  {
    if ops != [] {
      var init := ops[..|ops| - 1];
      AxisOrderAndCreatedPlacementStable(b, init, mergeAxis, mergeScale);
      RunKeepsAxesWellFormed(b, init, mergeAxis, mergeScale);
      var prev := Run(b, init, mergeAxis, mergeScale);
      StepKeepsAxisOrder(prev, ops[|ops| - 1], mergeAxis, mergeScale);
      assert Run(b, ops, mergeAxis, mergeScale) == Step(prev, ops[|ops| - 1], mergeAxis, mergeScale);
    }
  }

  /** The state after the addAxis calls `calls`, made in order on `b`. */
  function AddAxes(b: Builder, calls: seq<AxisProps>, mergeAxis: AxisMerge): Builder
    decreases |calls|
  {
    if calls == [] then b
    else AddAxis(AddAxes(b, calls[..|calls| - 1], mergeAxis), calls[|calls| - 1], mergeAxis)
  }

  /** The keys of `calls`. */
  function CallKeys(calls: seq<AxisProps>): set<string>
    decreases |calls|
  {
    if calls == [] then {} else CallKeys(calls[..|calls| - 1]) + {calls[|calls| - 1].scaleKey}
  }

  lemma {:induction false} NotInCallKeys(calls: seq<AxisProps>, k: string)
    requires forall i :: 0 <= i < |calls| ==> calls[i].scaleKey != k
    ensures k !in CallKeys(calls)
    decreases |calls|
  {
    if calls != [] {
      NotInCallKeys(calls[..|calls| - 1], k);
    }
  }

  /** Each call adds an axis for a new key with no placement or Auto. */
  ghost predicate NewAutoAxisCalls(b: Builder, calls: seq<AxisProps>) {
    && (forall i :: 0 <= i < |calls| ==> calls[i].placement.None? || calls[i].placement == Some(Auto))
    && (forall i :: 0 <= i < |calls| ==> calls[i].scaleKey !in b.axes)
    && (forall i, j :: 0 <= i < j < |calls| ==> calls[i].scaleKey != calls[j].scaleKey)
  }

  /** One new Auto axis: Left when there is no left axis yet, Right otherwise. */
  lemma NewAutoAxisStep(b: Builder, p: AxisProps, mergeAxis: AxisMerge)
    requires p.scaleKey !in b.axes
    requires p.placement.None? || p.placement == Some(Auto)
    ensures var r := AddAxis(b, p, mergeAxis);
      && r.hasLeftAxis
      && r.axes.Keys == b.axes.Keys + {p.scaleKey}
      && (forall k :: k in b.axes ==> r.axes[k] == b.axes[k])
      && r.axes[p.scaleKey].placement == Some(if b.hasLeftAxis then Right else Left)
  {
    AddAxisCreatePath(b, p, mergeAxis);
  }

  /** Calls for new, distinct keys create one axis each and raise `hasLeftAxis`
      when the placements are Auto. */
  lemma {:induction false} NewAxisCallsAddTheirKeys(b: Builder, calls: seq<AxisProps>, mergeAxis: AxisMerge)
    requires NewAutoAxisCalls(b, calls)
    ensures AddAxes(b, calls, mergeAxis).hasLeftAxis == (b.hasLeftAxis || |calls| > 0)
    ensures AddAxes(b, calls, mergeAxis).axes.Keys == b.axes.Keys + CallKeys(calls)
    decreases |calls|
  {
    if calls != [] {
      var n := |calls| - 1;
      var init, p := calls[..n], calls[n];
      assert NewAutoAxisCalls(b, init);
      NewAxisCallsAddTheirKeys(b, init, mergeAxis);
      var prev := AddAxes(b, init, mergeAxis);
      assert CallKeys(calls) == CallKeys(init) + {p.scaleKey};
      NotInCallKeys(init, p.scaleKey);
      assert p.scaleKey !in prev.axes;
      NewAutoAxisStep(prev, p, mergeAxis);
      assert AddAxes(b, calls, mergeAxis) == AddAxis(prev, p, mergeAxis);
    }
  }

  /** Successive new Auto axes go Left, Right, Right, ... on a builder with no
      left axis yet, and all Right on one that has one. */
  lemma {:induction false} AutoAxesAlternateOnce(b: Builder, calls: seq<AxisProps>, mergeAxis: AxisMerge)
    requires NewAutoAxisCalls(b, calls)
    ensures forall i :: 0 <= i < |calls| ==>
      && calls[i].scaleKey in AddAxes(b, calls, mergeAxis).axes
      && AddAxes(b, calls, mergeAxis).axes[calls[i].scaleKey].placement
           == Some(if i == 0 && !b.hasLeftAxis then Left else Right)
    decreases |calls|
  {
    if calls != [] {
      var n := |calls| - 1;
      var init := calls[..n];
      var p := calls[n];
      assert NewAutoAxisCalls(b, init);
      AutoAxesAlternateOnce(b, init, mergeAxis);
      NewAxisCallsAddTheirKeys(b, init, mergeAxis);
      var prev := AddAxes(b, init, mergeAxis);
      NotInCallKeys(init, p.scaleKey);
      assert p.scaleKey !in prev.axes;
      NewAutoAxisStep(prev, p, mergeAxis);
      assert AddAxes(b, calls, mergeAxis) == AddAxis(prev, p, mergeAxis);
      PlacementsCarryOver(b, init, p, prev, AddAxes(b, calls, mergeAxis));
      assert calls == init + [p];
    }
  }

  /** The induction step of AutoAxesAlternateOnce: placements of the earlier
      calls `init` survive the last call `p`, whose placement is as stated. */
  lemma PlacementsCarryOver(b: Builder, init: seq<AxisProps>, p: AxisProps, prev: Builder, r: Builder)
    requires forall i :: 0 <= i < |init| ==>
      && init[i].scaleKey in prev.axes
      && prev.axes[init[i].scaleKey].placement == Some(if i == 0 && !b.hasLeftAxis then Left else Right)
    requires prev.hasLeftAxis == (b.hasLeftAxis || |init| > 0)
    requires r.axes.Keys == prev.axes.Keys + {p.scaleKey}
    requires forall k :: k in prev.axes ==> r.axes[k] == prev.axes[k]
    requires r.axes[p.scaleKey].placement == Some(if prev.hasLeftAxis then Right else Left)
    ensures forall i :: 0 <= i < |init + [p]| ==>
      && (init + [p])[i].scaleKey in r.axes
      && r.axes[(init + [p])[i].scaleKey].placement == Some(if i == 0 && !b.hasLeftAxis then Left else Right)
  {
  }

  /** On a fresh builder: Left, then Right for every later new Auto axis. */
  lemma AutoAxesFromFresh(calls: seq<AxisProps>, mergeAxis: AxisMerge)
    requires NewAutoAxisCalls(Fresh, calls)
    ensures forall i :: 0 <= i < |calls| ==>
      && calls[i].scaleKey in AddAxes(Fresh, calls, mergeAxis).axes
      && AddAxes(Fresh, calls, mergeAxis).axes[calls[i].scaleKey].placement == Some(if i == 0 then Left else Right)
  {
    AutoAxesAlternateOnce(Fresh, calls, mergeAxis);
  }

  /** The series of the addSeries calls among `ops`, in call order. */
  function AddedSeries(ops: seq<Op>): seq<SeriesProps>
    decreases |ops|
  {
    if ops == [] then []
    else
      var last := ops[|ops| - 1];
      AddedSeries(ops[..|ops| - 1]) + (if last.AddSeriesOp? then [last.seriesProps] else [])
  }

  /** Series are append-only: the calls add exactly their series, in order. */
  lemma {:induction false} SeriesInCallOrder(b: Builder, ops: seq<Op>, mergeAxis: AxisMerge, mergeScale: ScaleMerge)
    ensures Run(b, ops, mergeAxis, mergeScale).series == b.series + AddedSeries(ops)
    decreases |ops|
  {
    if ops != [] {
      SeriesInCallOrder(b, ops[..|ops| - 1], mergeAxis, mergeScale);
    }
  }

  /** After N addSeries calls on a fresh builder the rendered series list has
      N + 1 entries: the placeholder, then the N series in call order. */
  lemma RenderedSeriesFromFresh(ops: seq<Op>, mergeAxis: AxisMerge, mergeScale: ScaleMerge)
    ensures var c := Config(Run(Fresh, ops, mergeAxis, mergeScale));
      && |c.series| == |AddedSeries(ops)| + 1
      && c.series[0] == Placeholder
      && forall i :: 0 <= i < |AddedSeries(ops)| ==> c.series[i + 1] == Series(AddedSeries(ops)[i])
  {
    var r := Run(Fresh, ops, mergeAxis, mergeScale);
    SeriesInCallOrder(Fresh, ops, mergeAxis, mergeScale);
    assert r.series == AddedSeries(ops);
  }

  /** Rendering twice gives the same configuration: the only state rendering
      touches is the stored cursor, and filling its defaults again changes nothing. */
  lemma GetConfigIdempotent(b: Builder)
    ensures Config(AfterGetConfig(b)) == Config(b)
    ensures AfterGetConfig(AfterGetConfig(b)) == AfterGetConfig(b)
  {
    if b.cursor.Some? {
      WithDefaultsIdempotent(b.cursor.value);
    }
  }

  /** The unset placement is turned into Auto before the merge path, so with
      the shallow merge a second placement-less addAxis for a key stores Auto
      on an axis that was created with a concrete side. */
  lemma PlacementlessMergeStoresAuto(b: Builder, key: string)
    requires key !in b.axes
    ensures var update := AxisProps(key, None, None, None, None);
      var b1 := AddAxis(b, update, ShallowMergeAxis);
      var b2 := AddAxis(b1, update, ShallowMergeAxis);
      && b1.axes[key].placement != Some(Auto)
      && b2.axes[key].placement == Some(Auto)
  {
  }
}
