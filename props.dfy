/** Property records of the three leaf builders (axis, scale, series).
    Each leaf builder holds one record and renders as that record. The leaf
    builders' `merge` is not part of this model: the builder takes it as a
    function, and ShallowMergeAxis / ShallowMergeScale below are one instance
    of it (every field the update defines replaces the stored one, every field
    it leaves unset keeps its value). */
module Props {

  datatype Option<+T> = None | Some(value: T) {
    function GetOr(default: T): T {
      match this
      case Some(v) => v
      case None => default
    }
  }

  /** Where an axis is drawn. `Auto` is a request that is resolved to a side when the axis is created. */
  datatype AxisPlacement = Auto | Left | Right | Bottom | Hidden

  /** Properties of one axis, anchored to the scale named by `scaleKey`. */
  datatype AxisProps = AxisProps(
    scaleKey: string,
    placement: Option<AxisPlacement>,
    show: Option<bool>,
    size: Option<int>,
    labelText: Option<string>)  // the axis label

  /** Properties of one scale, identified by `scaleKey`. */
  datatype ScaleProps = ScaleProps(
    scaleKey: string,
    isTime: Option<bool>,
    min: Option<int>,
    max: Option<int>)

  /** Properties of one data series; series are never merged. */
  datatype SeriesProps = SeriesProps(
    scaleKey: string,
    lineColor: Option<string>,
    lineWidth: Option<int>,
    show: Option<bool>)

  /** How a leaf builder folds an update into the properties it holds. */
  type AxisMerge = (AxisProps, AxisProps) -> AxisProps
  type ScaleMerge = (ScaleProps, ScaleProps) -> ScaleProps

  /** A scale merge never renames the scale it updates, given an update for
      that scale (the only kind of update the builder merges). */
  ghost predicate KeepsScaleKey(merge: ScaleMerge) {
    forall current: ScaleProps, update: ScaleProps | update.scaleKey == current.scaleKey ::
      merge(current, update).scaleKey == current.scaleKey
  }

  /** The update's value when it defines one, otherwise the current value. */
  function Override<T>(current: Option<T>, update: Option<T>): (r: Option<T>)
    ensures update.Some? ==> r == update
    ensures update.None? ==> r == current
  {
    if update.Some? then update else current
  }

  /** Shallow merge of an axis update into the stored axis, like an object
      spread of the update over the stored properties: the key is the update's. */
  function ShallowMergeAxis(current: AxisProps, update: AxisProps): (r: AxisProps)
    ensures r.scaleKey == update.scaleKey
    ensures update.placement.Some? ==> r.placement == update.placement
    ensures update.placement.None? ==> r.placement == current.placement
  {
    AxisProps(
      update.scaleKey,
      Override(current.placement, update.placement),
      Override(current.show, update.show),
      Override(current.size, update.size),
      Override(current.labelText, update.labelText))
  }

  /** Shallow merge of a scale update into the stored scale, like an object
      spread of the update over the stored properties: the key is the update's. */
  function ShallowMergeScale(current: ScaleProps, update: ScaleProps): (r: ScaleProps)
    ensures r.scaleKey == update.scaleKey
  {
    ScaleProps(
      update.scaleKey,
      Override(current.isTime, update.isTime),
      Override(current.min, update.min),
      Override(current.max, update.max))
  }

  /** Two scale updates for one key that define disjoint fields merge into
      one scale holding the fields of both. */
  lemma MergeScaleUnion(current: ScaleProps, u1: ScaleProps, u2: ScaleProps)
    requires u1.isTime.None? || u2.isTime.None?
    requires u1.min.None? || u2.min.None?
    requires u1.max.None? || u2.max.None?
    ensures var r := ShallowMergeScale(ShallowMergeScale(current, u1), u2);
      && r.scaleKey == u2.scaleKey
      && (u1.isTime.Some? ==> r.isTime == u1.isTime) && (u2.isTime.Some? ==> r.isTime == u2.isTime)
      && (u1.min.Some? ==> r.min == u1.min) && (u2.min.Some? ==> r.min == u2.min)
      && (u1.max.Some? ==> r.max == u1.max) && (u2.max.Some? ==> r.max == u2.max)
      && (u1.isTime.None? && u2.isTime.None? ==> r.isTime == current.isTime)
      && (u1.min.None? && u2.min.None? ==> r.min == current.min)
      && (u1.max.None? && u2.max.None? ==> r.max == current.max)
  {
  }

  /** The shallow merge copies the update's key, so it keeps the key of any
      update for the same scale. */
  lemma ShallowMergeScaleKeepsKey()
    ensures KeepsScaleKey(ShallowMergeScale)
  {
  }
}
