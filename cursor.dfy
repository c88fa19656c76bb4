/** The cursor (pointer interaction) specification and the merge of a caller's
    cursor with the built-in defaults. The merge is a deep "defaults" merge over
    a fixed schema: a leaf the caller set wins, a leaf the caller left unset
    takes the default, and an object the caller left unset is filled in whole. */
module Cursors {
  import opened Props

  /** A value a cursor option can hold: one the caller supplied, or one of the
      built-in default callbacks (their bodies are outside this model). */
  datatype Hook = CallerHook(id: nat) | PointSizeDefault | PointWidthDefault | PointStrokeDefault | PointFillDefault

  datatype Drag = Drag(setScale: Option<bool>, x: Option<bool>, y: Option<bool>)

  datatype Points = Points(
    show: Option<bool>,
    size: Option<Hook>,
    width: Option<Hook>,
    stroke: Option<Hook>,
    fill: Option<Hook>)

  datatype Cursor = Cursor(show: Option<bool>, drag: Option<Drag>, points: Option<Points>)

  const NoDrag := Drag(None, None, None)
  const NoPoints := Points(None, None, None, None, None)
  /** The empty cursor object `{}`. */
  const EmptyCursor := Cursor(None, None, None)

  /** The built-in defaults: a drag selection does not rescale, and the
      highlight marker's size, width, stroke and fill come from the default callbacks. */
  const Defaults := Cursor(
    None,
    Some(Drag(Some(false), None, None)),
    Some(Points(None, Some(PointSizeDefault), Some(PointWidthDefault), Some(PointStrokeDefault), Some(PointFillDefault))))

  // The five leaves of the defaults schema, read from any cursor.

  function SetScale(c: Cursor): Option<bool> {
    if c.drag.Some? then c.drag.value.setScale else None
  }

  function PointSize(c: Cursor): Option<Hook> {
    if c.points.Some? then c.points.value.size else None
  }

  function PointWidth(c: Cursor): Option<Hook> {
    if c.points.Some? then c.points.value.width else None
  }

  function PointStroke(c: Cursor): Option<Hook> {
    if c.points.Some? then c.points.value.stroke else None
  }

  function PointFill(c: Cursor): Option<Hook> {
    if c.points.Some? then c.points.value.fill else None
  }

  /** `r` keeps every leaf that `c` sets, inside and outside the defaults schema. */
  ghost predicate KeepsCallerFields(c: Cursor, r: Cursor) {
    && (c.show.Some? ==> r.show == c.show)
    && (c.drag.Some? ==> r.drag.Some? && DragKeeps(c.drag.value, r.drag.value))
    && (c.points.Some? ==> r.points.Some? && PointsKeep(c.points.value, r.points.value))
  }

  ghost predicate DragKeeps(d: Drag, e: Drag) {
    && (d.setScale.Some? ==> e.setScale == d.setScale)
    && (d.x.Some? ==> e.x == d.x)
    && (d.y.Some? ==> e.y == d.y)
  }

  ghost predicate PointsKeep(p: Points, q: Points) {
    && (p.show.Some? ==> q.show == p.show)
    && (p.size.Some? ==> q.size == p.size)
    && (p.width.Some? ==> q.width == p.width)
    && (p.stroke.Some? ==> q.stroke == p.stroke)
    && (p.fill.Some? ==> q.fill == p.fill)
  }

  /** Every schema leaf that `c` leaves unset holds the default in `r`. */
  ghost predicate DefaultsFillUnset(c: Cursor, r: Cursor) {
    && (SetScale(c).None? ==> SetScale(r) == SetScale(Defaults))
    && (PointSize(c).None? ==> PointSize(r) == PointSize(Defaults))
    && (PointWidth(c).None? ==> PointWidth(r) == PointWidth(Defaults))
    && (PointStroke(c).None? ==> PointStroke(r) == PointStroke(Defaults))
    && (PointFill(c).None? ==> PointFill(r) == PointFill(Defaults))
  }

  /** Leaves outside the schema are neither added nor dropped. */
  ghost predicate OtherFieldsUntouched(c: Cursor, r: Cursor) {
    && r.show == c.show
    && (r.drag.Some? && c.drag.Some? ==> r.drag.value.x == c.drag.value.x && r.drag.value.y == c.drag.value.y)
    && (r.drag.Some? && c.drag.None? ==> r.drag.value.x.None? && r.drag.value.y.None?)
    && (r.points.Some? && c.points.Some? ==> r.points.value.show == c.points.value.show)
    && (r.points.Some? && c.points.None? ==> r.points.value.show.None?)
  }

  function FillDrag(d: Drag): Drag {
    d.(setScale := Override(Some(false), d.setScale))
  }

  function FillPoints(p: Points): Points {
    p.(size := Override(Some(PointSizeDefault), p.size),
       width := Override(Some(PointWidthDefault), p.width),
       stroke := Override(Some(PointStrokeDefault), p.stroke),
       fill := Override(Some(PointFillDefault), p.fill))
  }

  /** The caller's cursor deep-merged with the built-in defaults. */
  function WithDefaults(c: Cursor): (r: Cursor)
    ensures KeepsCallerFields(c, r)
    ensures DefaultsFillUnset(c, r)
    ensures OtherFieldsUntouched(c, r)
    ensures SetScale(r).Some? && PointSize(r).Some? && PointWidth(r).Some? && PointStroke(r).Some? && PointFill(r).Some?
  {
    Cursor(c.show, Some(FillDrag(c.drag.GetOr(NoDrag))), Some(FillPoints(c.points.GetOr(NoPoints))))
  }

  /** With no cursor from the caller, the result is exactly the defaults. */
  lemma NoCursorGivesDefaults()
    ensures WithDefaults(EmptyCursor) == Defaults
  {
  }

  /** Merging the defaults a second time changes nothing. */
  lemma WithDefaultsIdempotent(c: Cursor)
    ensures WithDefaults(WithDefaults(c)) == WithDefaults(c)
  {
  }
}
