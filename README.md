# UPlotConfigBuilder, modelled in Dafny

This project models `UPlotConfigBuilder`, the orchestrator that assembles a uPlot
chart configuration for Grafana panels. Callers add axes, scales, series and a
cursor specification one at a time, in any order. The builder:

- keeps one axis per scale key and one scale per scale key;
- resolves where a new axis is drawn;
- fills cursor defaults;
- hands out one configuration object.

Files:

- `props.dfy` (module `Props`): the property records of the three leaf builders
  (axis, scale, series) and the placement enumeration. It also holds
  `ShallowMergeAxis` and `ShallowMergeScale`: one concrete leaf `merge`, where
  each field the update defines replaces the stored one, as in an object spread
  of the update over the stored properties.
- `cursor.dfy` (module `Cursors`): the cursor schema and the built-in defaults.
  `WithDefaults` is the deep "caller wins, else default" merge over the fixed
  schema `drag.setScale`, `points.size`, `points.width`, `points.stroke` and
  `points.fill`.
- `config_model.dfy` (module `ConfigModel`): the builder's state as a value
  (`Builder`), one transition per operation, the rendered configuration
  (`Config`), and `Run`, the state after a sequence of calls.
- `config_properties.dfy` (module `ConfigProperties`): lemmas over single calls
  and over whole call sequences.
- `config_builder.dfy` (module `ConfigBuilder`): the class `UPlotConfigBuilder`.
  Its fields are updated in place. Each method is proved to move the object's
  state (`Model()`) exactly as the matching `ConfigModel` transition does, so
  the lemmas about the transitions hold of the object. Four client methods walk
  through concrete call sequences.

The builder is given the leaf builders' merge functions when it is
constructed. Their code is not part of this model. The lemmas about axes,
series, the cursor and rendering hold for any merge, and so does the axis part
of the invariant (`AxesWellFormed`, `RunKeepsAxesWellFormed`). The exceptions
are these:

- `AddScaleKeepsWellFormed` and `RunPreservesWellFormed` assume that the scale
  merge keeps the scale's key when it is given an update for that same scale
  (`KeepsScaleKey`). Without that, one scale per key is not claimed. The builder
  only merges such updates, because line 57 finds the scale by its key.
- `PlacementlessMergeStoresAuto` and `MergeScaleUnion` are stated for the
  shallow merges `ShallowMergeAxis` and `ShallowMergeScale`.
- The client methods `AutoPlacementScenario`, `HiddenAxisScenario`,
  `SeriesRenderScenario` and `CursorRenderScenario` build the builder with the
  shallow merges.

The ghost field `created` records the placement each axis received when it was
created. A later merge may change the stored placement, so the invariants
"never Auto" and "`hasLeftAxis` exactly when some axis went Left" are stated
about `created`.

A second `addAxis` for a key passes its whole update to the axis builder's
`merge` (line 21). That update includes the placement defaulted to Auto at
line 18. Whether it moves the axis depends on `merge`, which is a parameter
here. `PlacementlessMergeStoresAuto` shows the case of a merge that copies
defined fields. There, a second `addAxis` without a placement stores Auto on an
axis that was created with a concrete side.

## Model

| member | source | states |
|---|---|---|
| ConfigBuilder.UPlotConfigBuilder.constructor | packages/grafana-ui/src/components/uPlot/config/UPlotConfigBuilder.ts:9-15 | a new builder has no axes, scales or series, no cursor, and `hasLeftAxis` false; the invariant holds |
| ConfigBuilder.UPlotConfigBuilder.AddAxis | packages/grafana-ui/src/components/uPlot/config/UPlotConfigBuilder.ts:17-40 | the in-place update keeps the invariant and moves the state exactly as `ConfigModel.AddAxis` |
| ConfigModel.AddAxis | packages/grafana-ui/src/components/uPlot/config/UPlotConfigBuilder.ts:17-40 | adding an axis leaves scales, series and cursor unchanged |
| ConfigModel.WithPlacementDefault | packages/grafana-ui/src/components/uPlot/config/UPlotConfigBuilder.ts:18 | an unset placement becomes Auto, an explicit one is kept, and no other field changes |
| ConfigProperties.AddAxisMergePath | packages/grafana-ui/src/components/uPlot/config/UPlotConfigBuilder.ts:20-23 | for a key that has an axis, only that entry changes, via merge of the defaulted update; no new key, no placement resolution, `hasLeftAxis` unchanged |
| ConfigProperties.AddAxisCreatePath | packages/grafana-ui/src/components/uPlot/config/UPlotConfigBuilder.ts:25-39 | for a new key: key appended, other axes unchanged, an unset or Auto placement resolves to Left without a left axis and to Right with one, an explicit one is kept, never Auto; `hasLeftAxis` becomes true exactly when the new axis is Left; Hidden forces `show` false and `size` 0; other fields kept |
| ConfigModel.ResolvePlacement | packages/grafana-ui/src/components/uPlot/config/UPlotConfigBuilder.ts:26-28 | the resolved side is never Auto; an explicit placement is kept; Auto becomes Left exactly when there is no left axis, and Right exactly when there is one |
| ConfigModel.NewAxis | packages/grafana-ui/src/components/uPlot/config/UPlotConfigBuilder.ts:34-39 | the new axis has the resolved placement; Hidden forces `show` false and `size` 0; otherwise `show` and `size` are the caller's; every other field is the caller's |
| ConfigProperties.AddAxisKeepsAxesWellFormed | packages/grafana-ui/src/components/uPlot/config/UPlotConfigBuilder.ts:20-39 | for any axis merge, addAxis keeps one axis per key, the key order matching the axis map, no axis created Auto, and `hasLeftAxis` exactly when some axis was created Left |
| ConfigProperties.RunKeepsAxesWellFormed | packages/grafana-ui/src/components/uPlot/config/UPlotConfigBuilder.ts:17-63 | for any merges, every sequence of calls keeps the axis part of the invariant |
| ConfigProperties.NewAutoAxisStep | packages/grafana-ui/src/components/uPlot/config/UPlotConfigBuilder.ts:26-32 | a new Auto axis goes Left when no axis is on the left and Right otherwise, and leaves a left axis behind either way |
| ConfigProperties.NewAxisCallsAddTheirKeys | packages/grafana-ui/src/components/uPlot/config/UPlotConfigBuilder.ts:26-39 | successive Auto axes for new distinct keys add exactly their keys and leave `hasLeftAxis` true when there was at least one |
| ConfigProperties.AutoAxesAlternateOnce | packages/grafana-ui/src/components/uPlot/config/UPlotConfigBuilder.ts:26-32 | successive new Auto axes go Left, Right, Right, ... with no left axis yet, and all Right once there is one; no third-side search |
| ConfigProperties.AutoAxesFromFresh | packages/grafana-ui/src/components/uPlot/config/UPlotConfigBuilder.ts:15-32 | on a new builder, the first new Auto axis is Left and every later one Right |
| ConfigProperties.HasLeftAxisNeverResets | packages/grafana-ui/src/components/uPlot/config/UPlotConfigBuilder.ts:30-32 | once true, `hasLeftAxis` stays true after any sequence of calls |
| ConfigProperties.AxisOrderAndCreatedPlacementStable | packages/grafana-ui/src/components/uPlot/config/UPlotConfigBuilder.ts:20-39 | for any merges, axis keys are only appended, so first-insertion order is kept; the recorded creation placement of each axis persists (by construction; that the merge path does not re-resolve is `AddAxisMergePath`) |
| ConfigProperties.PlacementlessMergeStoresAuto | packages/grafana-ui/src/components/uPlot/config/UPlotConfigBuilder.ts:18-23 | with a field-copying merge, a second placement-less addAxis stores Auto on an axis created with a concrete side |
| ConfigBuilder.UPlotConfigBuilder.GetAxisPlacement | packages/grafana-ui/src/components/uPlot/config/UPlotConfigBuilder.ts:42-45 | the stored axis's placement when it has one; Left when the key has no axis or its axis has no placement; reads state only; not Auto for an axis still at its created placement |
| ConfigModel.SetCursor | packages/grafana-ui/src/components/uPlot/config/UPlotConfigBuilder.ts:47-49 | the stored cursor becomes the given one, an unset one included, and nothing else changes |
| ConfigBuilder.UPlotConfigBuilder.SetCursor | packages/grafana-ui/src/components/uPlot/config/UPlotConfigBuilder.ts:47-49 | replaces the stored cursor and nothing else |
| ConfigModel.AddSeries | packages/grafana-ui/src/components/uPlot/config/UPlotConfigBuilder.ts:51-53 | the series list grows by one, keeps its earlier entries and ends with the new series; nothing else changes |
| ConfigBuilder.UPlotConfigBuilder.AddSeries | packages/grafana-ui/src/components/uPlot/config/UPlotConfigBuilder.ts:51-53 | appends the series and changes nothing else |
| ConfigProperties.SeriesInCallOrder | packages/grafana-ui/src/components/uPlot/config/UPlotConfigBuilder.ts:52 | after any calls the series are the earlier ones followed by exactly the added ones in call order |
| ConfigBuilder.UPlotConfigBuilder.AddScale | packages/grafana-ui/src/components/uPlot/config/UPlotConfigBuilder.ts:56-63 | the search loop finds the first scale with the key; the state moves exactly as `ConfigModel.AddScale`; the invariant is kept |
| ConfigModel.IndexOfScale | packages/grafana-ui/src/components/uPlot/config/UPlotConfigBuilder.ts:57 | the index of the first scale with the key, or -1 exactly when no scale has it |
| ConfigModel.AddScale | packages/grafana-ui/src/components/uPlot/config/UPlotConfigBuilder.ts:56-63 | an existing key keeps the length and the key order, and only that element is replaced by its merge; a new key appends the scale; axes, series and cursor unchanged |
| ConfigProperties.AddScaleKeepsWellFormed | packages/grafana-ui/src/components/uPlot/config/UPlotConfigBuilder.ts:56-63 | addScale keeps scale keys unique when the merge keeps the key of a same-key update |
| Props.MergeScaleUnion | packages/grafana-ui/src/components/uPlot/config/UPlotConfigBuilder.ts:58-59 | with the shallow merge, two updates of one scale that set disjoint fields leave a scale holding both updates' fields, the stored values where neither sets one, and the last update's key |
| ConfigProperties.RunPreservesWellFormed | packages/grafana-ui/src/components/uPlot/config/UPlotConfigBuilder.ts:17-63 | every sequence of calls keeps one axis and one scale per key, never an Auto axis created, and `hasLeftAxis` in step with the created axes |
| ConfigBuilder.UPlotConfigBuilder.GetConfig | packages/grafana-ui/src/components/uPlot/config/UPlotConfigBuilder.ts:65-93 | returns `Config` of the state; the only state change is the stored cursor being filled with defaults |
| ConfigModel.Config | packages/grafana-ui/src/components/uPlot/config/UPlotConfigBuilder.ts:65-73 | series is the placeholder then the series in order (length N+1); axes list every axis in first-insertion key order; scales map each key to its scale; the cursor is the caller's (or empty) merged with defaults |
| ConfigModel.AxesInOrder | packages/grafana-ui/src/components/uPlot/config/UPlotConfigBuilder.ts:67 | when every key has an axis, one axis per key, in key order |
| ConfigModel.RenderSeries | packages/grafana-ui/src/components/uPlot/config/UPlotConfigBuilder.ts:68 | one rendered entry per series, in order |
| ConfigModel.ScaleMap | packages/grafana-ui/src/components/uPlot/config/UPlotConfigBuilder.ts:69-71 | the fold's keys are exactly the scale keys, and with unique keys each maps to its scale |
| ConfigProperties.RenderedSeriesFromFresh | packages/grafana-ui/src/components/uPlot/config/UPlotConfigBuilder.ts:66-68 | after N addSeries calls on a new builder, the rendered series has N+1 entries: the placeholder, then the series in call order |
| Cursors.WithDefaults | packages/grafana-ui/src/components/uPlot/config/UPlotConfigBuilder.ts:73-90 | every field the caller set is kept; each unset schema leaf gets its default; fields outside the schema are neither added nor dropped; all five schema leaves end up set |
| Cursors.NoCursorGivesDefaults | packages/grafana-ui/src/components/uPlot/config/UPlotConfigBuilder.ts:73-90 | with no cursor the result is exactly the defaults |
| Cursors.WithDefaultsIdempotent | packages/grafana-ui/src/components/uPlot/config/UPlotConfigBuilder.ts:90 | merging the defaults a second time changes nothing |
| ConfigModel.AfterGetConfig | packages/grafana-ui/src/components/uPlot/config/UPlotConfigBuilder.ts:73-90 | rendering changes only the stored cursor, which gets its defaults filled in place; an unset cursor stays unset |
| ConfigProperties.GetConfigIdempotent | packages/grafana-ui/src/components/uPlot/config/UPlotConfigBuilder.ts:65-93 | rendering again gives an equal configuration, and a second render changes no state |

## Left out

- The bodies of the cursor default callbacks: they read the live uPlot instance, do floating-point arithmetic and append an alpha suffix to a colour string. They are opaque tokens here (`PointSizeDefault` and so on), and so are the caller's callbacks (`CallerHook`).
- lodash `defaultsDeep` over arbitrary objects: the merge is written out over the fixed schema. The cursor keeps only a few fields outside it (`show`, `drag.x`, `drag.y`, `points.show`), to show that such fields pass through.
- The leaf builders (`UPlotAxisBuilder`, `UPlotScaleBuilder`, `UPlotSeriesBuilder`) are not part of this model. Their `merge` is a parameter of the builder, and their rendering is the property record itself.
- AxisProps, ScaleProps and SeriesProps carry a representative subset of their fields. Formatters, themes and the like are left out because the builder never inspects them.
- Aliasing: the builder mutates the caller's `props` object in place (lines 18, 27, 35-36), and the returned `cursor` is the stored cursor object. Both are values here.
- Keys inherited from `Object.prototype`: `axes` is a plain object (line 11). So for a scale key such as `constructor`, `toString` or `__proto__`, the lookup at line 20 finds an inherited member, and line 21 throws because that member has no `merge`. `getAxisPlacement` on such a key throws at line 44. The model's axis map holds only the axes that were added, so it creates the axis, or returns Left. The model has no error path for these keys.
- JavaScript object-key order: `Object.values` puts integer-like keys first. The model uses plain first-insertion order of keys.
- The uPlot rendering engine that consumes the configuration, and the type-only imports.
- ConfigBuilder.UPlotConfigBuilder.constructor: takes the two leaf merge functions as arguments, which the source constructor does not. It requires that the scale merge keeps the scale key for an update to the same scale. Without that, key uniqueness of scales is not claimed.
