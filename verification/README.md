# AionClassicMap `MapBase` core, modelled in Dafny

This project models the three parts of `assets/js/map.js` (the front end of a
fan-made map of the game world of Aion Classic) whose behaviour can be stated
exactly:

* **Startup parameter validation** (`MapBase.beforeLoad`). At start-up the
  map reads five query parameters: `q`, `theme`, `z`, `ft` and `c`. Each one
  overwrites a field of the `MapBase` object (`isPreviewMode`, `themeOverride`,
  `viewportZoom`, `viewportX`/`viewportY`, `colorOverride`) only when its value
  passes a check. Anything malformed is ignored, and the field keeps the
  default it was given in the object literal.
  The model is the class `MapBase.MapBase`. It has those fields, an object
  invariant `Valid()` (the zoom lies within `[minZoom, maxZoom]`, only the
  allowed theme, only palette colours, and a comma-free centre), and the method
  `BeforeLoad`. `BeforeLoad` runs the five parameter blocks of the source in
  order; each block is one `Apply…Param` method.
  The checks themselves are pure functions in `QueryParams`.
* **Chunked loop** (`MapBase.yieldingLoop`). The loop calls `callback(i)` for
  `i` in `[0, count)`, in runs of the inner `chunk()` function of at most
  `chunksize` indices each (all `count` indices in one run in preview mode),
  and then calls `finished()` once. `YieldingLoop` records the calls as a
  trace of `Event`s and the indices of each run as `chunks`.
  `ChunkSchedule.RunChunk` is one run of `chunk()`.
* **Coordinate conversions** (`_num_distance`, `_normal_xy`, `_gameToMap`, and
  the arithmetic of `gameToMap`). They are pure functions over `real` in
  `Calibration`.

`getParameterByName` is modelled as a lookup in a `map<string, string>` of
decoded parameter values; a missing key stands for `null`. `Number.parseInt`
and the truthiness of `Number(s)` (not `NaN` and not zero) are JavaScript
built-ins. They are passed to `BeforeLoad` as the functions `parseInt` and
`isTruthyNumber`, and the model does not assume anything about them.
`String.prototype.split` with a one-character separator and
`Array.prototype.filter` are defined in `JsBuiltins`. `Split` is proved
against its partner `Join` in both directions.

Behaviour of the code worth noting:
- A parsed `z` outside `[4, 7]` is ignored, and the zoom keeps its previous value.
- The centre is replaced when exactly two of the comma-separated parts of `ft`
  are truthy numbers. The number of parts does not have to be two. The centre
  then becomes the first two parts, as raw strings, even if those are not the
  two numeric ones. So `ft=a,5,6` gives the centre `("a", "5")`; see
  `QueryParams.CenterTakesFirstTwoRawParts`. A zero part is not truthy, so
  `ft=0,5` keeps the default centre.
- After an override, `viewportX` and `viewportY` hold strings and no longer
  numbers. They are modelled as a `JsValue`, which is either `Num` or `Str`.

## Model

| member | source | states |
|---|---|---|
| `MapBase.MapBase.constructor` | assets/js/map.js:15-20 | the object starts with no preview mode, no colour or theme override, centre (-24, 24) and zoom 4, which satisfy the invariant |
| `MapBase.MapBase.BeforeLoad` | assets/js/map.js:162-198 | keeps `Valid()`. Each field gets its validator's override when there is one, and otherwise keeps its old value. Preview mode is only ever switched on |
| `MapBase.MapBase.ApplyPreviewParam` | assets/js/map.js:164-165 | `isPreviewMode` becomes true when `q` is present and non-empty; otherwise it is unchanged, and it is never reset |
| `MapBase.MapBase.ApplyThemeParam` | assets/js/map.js:168-170 | `themeOverride` changes only to the namespaced theme that `theme` selects; any other `theme` leaves it as it was |
| `MapBase.MapBase.ApplyZoomParam` | assets/js/map.js:173-175 | `viewportZoom` becomes the parsed `z` only when the value is within `[minZoom, maxZoom]`. Otherwise it keeps its old value, so the invariant `4 <= viewportZoom <= 7` holds |
| `MapBase.MapBase.ApplyFlyToParam` | assets/js/map.js:178-185 | the centre becomes the first two raw parts of `ft` when `CenterOverride` accepts `ft`; otherwise both coordinates are unchanged |
| `MapBase.MapBase.ApplyColorParam` | assets/js/map.js:188-197 | `colorOverride` changes only to a palette name equal to `c`; any other `c` leaves it unchanged |
| `MapBase.InitFromQuery` | assets/js/map.js:22-26 | after the defaults and `beforeLoad`: preview mode is on iff `q` is present and non-empty, and each field is its override or its default |
| `QueryParams.ThemeOverride` | assets/js/map.js:168-170 | there is an override iff `theme` is exactly `"default"`, and it is then `"map.layers.default"` |
| `QueryParams.ZoomOverride` | assets/js/map.js:173-175 | there is an override iff `z` is present, parses, and lies within `[minZoom, maxZoom]`, and it is then the parsed value |
| `QueryParams.CenterOverride` | assets/js/map.js:178-185 | there is an override iff `ft` is non-empty and exactly two of its comma-separated parts are truthy numbers. It is then the first two parts (there are at least two), neither of which contains a comma |
| `QueryParams.ColorOverride` | assets/js/map.js:188-197 | there is an override iff `c` is a palette name, and it is then `c` itself (never empty) |
| `QueryParams.PaletteIsWellFormed` | assets/js/map.js:190-194 | the palette has 25 distinct, non-empty names |
| `QueryParams.ZoomExamples` | assets/js/map.js:173-175 | with bounds 4 and 7: a parsed zoom within `[4, 7]` is taken as it is; NaN, out-of-range and absent zooms are ignored |
| `QueryParams.CenterAcceptsPair` | assets/js/map.js:178-185 | `ft=10,20` gives the centre ("10", "20") |
| `QueryParams.CenterRejectsSingle` | assets/js/map.js:178-185 | `ft=10` keeps the centre |
| `QueryParams.CenterRejectsNonNumbers` | assets/js/map.js:178-185 | `ft=a,b` and `ft=0,5` keep the centre |
| `QueryParams.CenterTakesFirstTwoRawParts` | assets/js/map.js:180-184 | `ft=a,5,6` gives the centre ("a", "5") |
| `QueryParams.ColorExamples` | assets/js/map.js:188-197 | `c=blue` is accepted; `c=neonpink`, an empty `c` and an absent `c` are not |
| `JsBuiltins.Split` | assets/js/map.js:180 | a split has at least one part, and no part contains the separator |
| `JsBuiltins.JoinSplit` | assets/js/map.js:180 | joining the parts of a split with the separator gives back the original string |
| `JsBuiltins.SplitJoin` | assets/js/map.js:180 | splitting the join of separator-free parts gives back the parts |
| `JsBuiltins.SplitFree` | assets/js/map.js:180 | a string without the separator splits into itself alone |
| `JsBuiltins.SplitCount` | assets/js/map.js:180 | a split has one part more than the string has separators |
| `JsBuiltins.Filter` | assets/js/map.js:181 | the filtered list is no longer than the input; each element in it passes the test and comes from the input; and each input element that passes the test is in it |
| `JsBuiltins.FilterAppend` | assets/js/map.js:181 | filtering a concatenation is the concatenation of the filtered parts |
| `JsBuiltins.FilterCount` | assets/js/map.js:181 | the filtered list has exactly one element per position of the input whose element passes the test |
| `MapBase.MapBase.YieldingLoop` | assets/js/map.js:307-321 | the trace is the callbacks for the indices 0 .. count-1, once each and in increasing order, followed by a single `finished`. Every run but the last handles exactly `chunksize` indices, and the last handles between 1 and `chunksize`; a preview is one run and `count = 0` is one empty run |
| `ChunkSchedule.RunChunk` | assets/js/map.js:310-314 | one run of `chunk()` advances the shared counter to `min(start + size, count)` (never backwards), calling the callback for each index on the way, in order |
| `ChunkSchedule.Calls` | assets/js/map.js:313 | the trace holds one callback event per index, in the same order |
| `ChunkSchedule.ChunkCount` | assets/js/map.js:307-321 | a schedule of full chunks has `ceil(count / size)` runs: `(runs - 1) * size < count <= runs * size` |
| `Calibration.NumDistance` | assets/js/map.js:390-392 | the distance is non-negative, is either `t - i` or `i - t`, and is zero exactly when `t == i` |
| `Calibration.NumDistanceSymmetric` | assets/js/map.js:390-392 | the distance does not depend on the order of its arguments |
| `Calibration.NormalXY` | assets/js/map.js:386-388 | both components are non-negative, and both are zero exactly when the two points coincide |
| `Calibration.NormalXYPerAxis` | assets/js/map.js:386-388 | each axis of the result depends only on the same axis of the two points |
| `Calibration.CornerGameToMap` | assets/js/map.js:374-384 | both pixel coordinates are non-negative, and they are (0, 0) exactly at the top-left corner |
| `Calibration.CornerGameToMapTopLeft` | assets/js/map.js:374-384 | the top-left corner (-7168, 4096) maps to pixel (0, 0) |
| `Calibration.CornerGameToMapBottomRight` | assets/js/map.js:374-384 | the bottom-right corner (5120, -5632) maps to pixel (48841, 38666) |
| `Calibration.CornerGameToMapInside` | assets/js/map.js:374-384 | inside the calibration rectangle the conversion interpolates linearly between the corners and stays within the image |
| `Calibration.CornerGameToMapMirror` | assets/js/map.js:374-384 | a point and its mirror image through the top-left corner map to the same pixel |
| `Calibration.GameToMap` | assets/js/map.js:230-238 | the marker carries the given name, and its map coordinates invert back to the game point |
| `Calibration.GameToMapOfMapToGame` | assets/js/map.js:231-232 | every map point is reached from the game point that `MapToGame` gives |
| `Calibration.GameToMapOrigin` | assets/js/map.js:230-232 | the game origin with the default name gives the marker ("Debug Marker", -23.95, 24) |
| `Calibration.GameToMapMonotone` | assets/js/map.js:231-232 | each map coordinate grows with the game coordinate it comes from |

## Left out

- `init` is left out apart from its first step, `beforeLoad`. That covers the tile layers, the map, the controls, the bounds and the spiderfier set-up (assets/js/map.js:22-149), which are calls into Leaflet and other libraries.
- The patch of `L.Layer.bindPopup` and its hover timers (assets/js/map.js:42-88) are library patching and UI timing.
- `setMapBackground`, `afterLoad`, `debugMarker`, `submitDebugForm` and `addCoordsOnMap` (assets/js/map.js:151-305) are DOM and jQuery manipulation. Their only effect that matters here is that `gameToMap` places a marker, and that effect is not modelled.
- `updateTippy` (assets/js/map.js:323-351) is a debounce timer that rebuilds tooltip instances.
- `_rectangle` and `_debugMarker` (assets/js/map.js:354-372) depend on Leaflet's `latLngToContainerPoint` and `unproject`.
- The internals of `getParameterByName`, `Number.parseInt` and `Number(...)` are not modelled. The query is a map of decoded values, and the two number built-ins are function parameters. `parseInt(null)` is taken to be `NaN`.
- `ZoomOverride` treats the result of `parseInt` as an integer or `NaN`. An infinite result would fail the range check in either case.
- `GameToMap` leaves out the `toFixed(4)` rounding to a decimal string, and all the coordinate arithmetic is over exact reals rather than IEEE doubles. No result is claimed to be bit-exact.
- `YieldingLoop` does not model the `setTimeout` asynchrony. Runs of `chunk()` follow one another, and other events cannot interleave between them. `callback` and `finished` are recorded in a trace rather than called.
- `MapBase.MapBase.YieldingLoop` requires `chunksize > 0`, unless the map is in preview mode or `count` is 0. With a non-positive chunk size and indices left, the source would reschedule `chunk()` forever without progress, and that non-terminating case is not modelled.
- `MapBase.MapBase.YieldingLoop` takes `chunksize` as an integer. A fractional size is not modelled: with 2.5 each run of `chunk()` would handle 3 indices, since the loop runs while `i < end`. A `NaN` size is not modelled either: it would make every run empty and reschedule `chunk()` forever.
- `count` in `yieldingLoop` is a natural number. Fractional or negative counts are not modelled.

