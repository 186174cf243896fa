# 3D bar chart: data-to-bar conversion and camera control

A Dafny model of the logic inside a Power BI custom visual. The visual draws a
two-category, one-measure data view as a grid of 3D bars. Two parts are modelled:

- **Data-to-bar conversion** (`src/visual.ts`). `checkDataView` decides whether the
  host's data view can be used. `convertData` builds the chart model:
  - it deduplicates each category column with `_.uniq`, keeping first-seen order;
  - it writes each surviving label's position into a plain object, keyed by the
    label's JavaScript property key, so `null` becomes `"null"`;
  - it builds one bar per value row;
  - it copies `minLocal`/`maxLocal` from the value column.

  `drawBars` turns bars into meshes using a linear depth scale over `[0, maxLocal]`.
  `createBar` fills in defaults, `shiftCameraToCenterOfChart` moves the camera, and
  `update` chooses what to do based on the update type.
- **Camera control** (`src/cameraControl.ts`). The mouse, keyboard and wheel handlers
  form a pure transition function over the controller state. The state is
  `press`, `zoomMode`, `sensitivity`, plus the camera's position, its quaternion
  x/y components and its field of view.

Modules and files:

| file | module | models |
|---|---|---|
| wrappers.dfy | Wrappers | `Option`, standing in for null/undefined |
| decimal.dfy | Decimal | `valueIndex.toString()`, the palette key |
| categories.dfy | Categories | labels, property keys, `_.uniq`, the index-building `forEach` |
| chart_data.dfy | ChartData | data view shape, `checkDataView`, `convertData` |
| depth_scale.dfy | DepthScale | the d3 linear scale in `drawBars` |
| visual.dfy | Visual | `createBar`, `drawBars`, `shiftCameraToCenterOfChart`, `update` |
| scenario.dfy | Scenario | a worked three-row example |
| camera_control.dfy | CameraControl | the `CameraControl` event handlers |

Behaviour of the code that is easy to misread:

- **Depth domain.** The depth scale's domain is `[0, maxLocal]` (src/visual.ts:169); `minLocal`
  is copied into the model but never read. So the smallest value does not give a flat bar (`Scenario.SampleDepths`).
- **Empty columns pass the check.** `checkDataView` only tests for missing or falsy
  properties, and an empty array is truthy, so empty columns pass.
- **The check can throw.** With fewer than two category columns, `checkDataView`
  throws while reading `categories[1].source` instead of returning false.
- **A missing value column throws.** If the values array has no column 0,
  `convertData` throws.
- **Bars use `y`.** Bars carry `y`, which is the field `drawBars` reads. The `Bar3D`
  interface (src/interfaces.ts:2-10) names the field `z`.
- **Update tags are compared exactly.** `update` tests `options.type` with `===`
  against `Data`, `Resize` and `All` (src/visual.ts:104-105, 121-122, 130-131).
  In the model, `ViewMode` and `Style` stand for every other tag value, including a
  combined flag value such as `Data | Resize`, which the code also treats as "other".

Labels are `Null | Undefined | Text(s)`. Reading a category column past its end
gives JavaScript `undefined`, which is why `Undefined` exists. A bar coordinate is
`None` when the key lookup yields `undefined`.

## Model

| member | source | states |
|---|---|---|
| Decimal.Show | src/visual.ts:310 | the row ordinal's text is non-empty, all decimal digits, with no leading zero |
| Decimal.ParseShow | src/visual.ts:310 | reading the ordinal's text back gives the ordinal (round trip) |
| Decimal.ShowInjective | src/visual.ts:310 | two rows give the same palette key exactly when they are the same row |
| Categories.Uniq | src/visual.ts:289 | `_.uniq` output has no duplicates and holds exactly the labels of the column |
| Categories.BuildIndex | src/visual.ts:289-294 | the index keys are exactly the property keys of the deduplicated labels |
| Categories.BuildIndexSnoc | src/visual.ts:289-294 | indexing one more entry writes its position under its key, overwriting any earlier position |
| Categories.BuildIndexPositions | src/visual.ts:289-294 | each key maps to a position whose entry has that key |
| Categories.BuildIndexLastWrite | src/visual.ts:289-294 | no entry after the stored position has the same key (the last write wins) |
| Categories.BuildIndexLastWins | src/visual.ts:289-294 | each key holds a position whose entry has that key, and no later entry has that key |
| Categories.KeyCollision | src/visual.ts:290-293 | two labels share a key iff they are equal, or are null and "null", or undefined and "undefined" |
| Categories.UniqSnoc | src/visual.ts:289 | deduplicating one more label appends it exactly when it has not been seen |
| Categories.UniqCount | src/visual.ts:289 | the deduplicated column is as long as the number of distinct labels |
| Categories.UniqPrefix | src/visual.ts:289 | deduplicating a prefix gives a prefix of the deduplicated column |
| Categories.UniqRank | src/visual.ts:289 | each label sits in the deduplicated column at its first-occurrence rank |
| Categories.UniqFirstSeenOrder | src/visual.ts:289 | one label precedes another in the deduplicated column iff it first appears earlier |
| Categories.IndexIsPosition | src/visual.ts:289-294 | without key clashes, every entry is stored under its own position and the index has one key per entry |
| Categories.ClashLosesPosition | src/visual.ts:289-294 | when two entries share a key, no key keeps the earlier entry's position |
| Categories.IndexContiguousIff | src/visual.ts:289-294 | the index values are exactly 0..n-1 iff no two deduplicated entries share a key |
| Categories.NoKeyClashIff | src/visual.ts:289-300 | the deduplicated keys are distinct iff the column does not hold both null and "null", nor both undefined and "undefined" |
| Categories.ColumnIndexIsRank | src/visual.ts:289-300 | under that condition, each label's key maps to its first-occurrence rank; the values are exactly 0..n-1 for n distinct labels; the index has n keys |
| Categories.NullCollision | src/visual.ts:290-293 | with both null and "null" in the column, key "null" holds the later of the two ranks and the earlier rank is in no entry |
| Categories.NullKeyPositions | src/visual.ts:290-293 | in the deduplicated column only the null and "null" entries carry the key "null" |
| ChartData.CheckDataView | src/visual.ts:263-274 | usable iff a first data view has categorical data, at least two category columns with sources for columns 1 and 0, and a values array; throws iff it reaches a missing second category column |
| ChartData.ConvertData | src/visual.ts:276-324 | null iff the check says unusable; a model iff the check passes and value column 0 exists; one bar per value row carrying that row's value and labels; index keys are the columns' label keys; minLocal/maxLocal copied unchanged |
| ChartData.LookupRow | src/visual.ts:308-309 | looking up a row inside the column finds the label's position in the deduplicated column; that column is as long as the number of distinct labels |
| ChartData.BarsPlaced | src/visual.ts:303-314 | with parallel columns and distinguishing keys, every bar has x and y, each below its distinct-label count, and indexing the deduplicated column with them gives back the bar's labels |
| ChartData.BarXDefinedIff | src/visual.ts:305-308 | a bar's x is defined iff its row is inside the X column or the column holds a label keyed "undefined" |
| ChartData.BarColors | src/visual.ts:310 | bar i takes the palette colour for the text of i, and distinct rows ask for distinct keys |
| ChartData.UndefinedKeyIff | src/visual.ts:308 | the key "undefined" is indexed iff the column holds undefined or the string "undefined" |
| ChartData.DistinctRowsDistinctCells | src/visual.ts:303-314 | rows with distinct label pairs get distinct (x, y) cells |
| DepthScale.Depth | src/visual.ts:169 | depth times maxLocal equals value times BAR_SIZE_HEIGHT (proportionality) when maxLocal is non-zero |
| DepthScale.DepthEndpoints | src/visual.ts:169 | value 0 gives depth 0, value maxLocal gives BAR_SIZE_HEIGHT |
| DepthScale.DepthMonotone | src/visual.ts:169 | a larger value never gives a shallower bar |
| DepthScale.DepthBounded | src/visual.ts:169 | values in [0, maxLocal] give depths in [0, BAR_SIZE_HEIGHT] |
| DepthScale.DepthInverse | src/visual.ts:169 | the value is recovered from the depth |
| Visual.Construct | src/visual.ts:197-205 | a new visual has an empty scene, the camera at the default position and the scene at the default rotation |
| Visual.CreateBar | src/visual.ts:149-165 | a mesh's colour is never empty: a truthy colour is kept, a falsy one becomes "red"; z defaults to 0; the box stands on its position; size and x/y are the parameters' |
| Visual.DrawBars | src/visual.ts:167-182 | one mesh per bar in bar order, depth from the scale, x/y from the bar, z 0, both sides BAR_SIZE, a non-empty bar colour kept |
| Visual.DrawnDepthsBounded | src/visual.ts:169-174 | with values in [0, maxLocal], every mesh depth lies in [0, BAR_SIZE_HEIGHT] |
| Visual.CameraTarget | src/visual.ts:190 | the camera never lands on x = 0 (the x fallback is non-zero); the y fallback is a no-op, so y is the computed y; z is always the default |
| Visual.ShiftCameraToCenterOfChart | src/visual.ts:184-191 | the camera always goes to the default position (5, 0, 10) |
| Visual.Update | src/visual.ts:102-147 | an unusable data view returns after only the Data/All clear; a throw happens iff conversion throws, leaving only the clear; one render loop and one settings parse per converted model; non-drawing updates keep scene, camera and labels; non-resizing updates keep the renderer size |
| Visual.UpdateDrawsModel | src/visual.ts:129-139 | a Data/All update with a model leaves exactly two lights plus one mesh per value row, and the camera at the default; label requests are appended for columns 0 and 1 |
| Visual.UpdateRebuildsScene | src/visual.ts:103-139 | a Data/All update draws the same scene whatever the earlier state |
| Visual.UpdateResizeOnly | src/visual.ts:120-127 | a Resize update with a model resizes the renderer and keeps the scene and camera |
| Scenario.SampleIndexX | src/visual.ts:289-294 | ["east","west","east"] indexes to {east: 0, west: 1} |
| Scenario.SampleIndexY | src/visual.ts:295-300 | ["q1","q1","q2"] indexes to {q1: 0, q2: 1} |
| Scenario.SampleIsUsable | src/visual.ts:276-324 | the sample data view converts to a model of category columns 1 and 0 and value column 0 |
| Scenario.SampleBarList | src/visual.ts:303-314 | the sample's bars are at x = 0, 1, 0 and y = 0, 0, 1 with values 10, 20, 5 in row order |
| Scenario.SampleBars | src/visual.ts:276-324 | the sample model holds the two first-appearance indices, that bar list and maxLocal 20 |
| Scenario.SampleDepths | src/visual.ts:169-174 | the sample depths are H/2, H and H/4: the value 5 (= minLocal) does not give a flat bar |
| CameraControl.Init | src/cameraControl.ts:3-5 | a new controller is not pressed, not zooming, and has sensitivity 0.02 |
| CameraControl.Step | src/cameraControl.ts:7-51 | the callback fires iff the event is a wheel or a pressed move; camera changes only with a callback; press changes only on button events; zoom mode changes only on Shift events; sensitivity never changes |
| CameraControl.PressButtons | src/cameraControl.ts:25-27 | mousedown sets press; mouseup and mouseleave clear it; nothing else changes and no callback fires |
| CameraControl.MoveUnpressed | src/cameraControl.ts:8-11 | a move while not pressed changes nothing and fires no callback |
| CameraControl.PanMove | src/cameraControl.ts:13-15 | a pressed button-0 move subtracts movementX*s from position x and movementY*s from position y; nothing else changes |
| CameraControl.RotateMove | src/cameraControl.ts:17-19 | a pressed button-2 move subtracts movementX*s/10 from quaternion y and movementY*s/10 from quaternion x; nothing else changes |
| CameraControl.OtherButtonMove | src/cameraControl.ts:13-22 | a pressed move with another button changes nothing but fires the callback |
| CameraControl.ZoomKeys | src/cameraControl.ts:29-39 | Shift keydown/keyup set/clear zoom mode; other keys change nothing; no callback |
| CameraControl.WheelMove | src/cameraControl.ts:41-50 | in zoom mode the wheel changes only fov by wheelDelta*s, otherwise only position z; the callback fires either way |
| CameraControl.PanInverse | src/cameraControl.ts:13-19 | a pressed move followed by the opposite move restores the state |
| CameraControl.PanAdditive | src/cameraControl.ts:13-19 | two pressed moves equal one move by the summed movement |
| CameraControl.WheelInverse | src/cameraControl.ts:41-50 | a wheel delta followed by its opposite restores the state |
| CameraControl.RunZoomMode | src/cameraControl.ts:29-39 | after any event sequence, zoom mode is set by the most recent Shift event, or is unchanged if there is none |
| CameraControl.RunPress | src/cameraControl.ts:25-27 | after any event sequence, press is set by the most recent button event, or is unchanged if there is none |
| CameraControl.IdleRun | src/cameraControl.ts:8-50 | from an unpressed state, events with no mousedown and no wheel never move the camera or fire the callback |
| CameraControl.RunKeepsSensitivity | src/cameraControl.ts:5 | no event sequence changes the sensitivity |

## Left out

- Three.js rendering is not modelled: renderer, materials, geometry internals, lights' parameters and `updateProjectionMatrix`. A scene is a list of light and mesh records.
- The `requestAnimationFrame` render loop is not modelled. `Visual.Update` only counts how many loops were started; each successful update starts another one.
- `create2DLabels` loads a font over the network asynchronously. `Visual.Update` records only which column it is asked to label on which axis.
- `VisualSettings.parse` and `enumerateObjectInstances` are not part of this model. `Visual.Update` counts settings parses.
- The host colour palette is a pure `string -> string` parameter. The real palette remembers the keys it has been asked for.
- `BAR_SIZE`, `BAR_SIZE_HEIGHT` and `COLOR_WHITE` are defined outside the modelled files. The first two are fields of a `Dimensions` parameter.
- `degRad` and the trigonometry are not modelled. The scene rotation is kept in degrees.
- Numbers are mathematical reals. IEEE rounding, NaN and infinities are not modelled, so a NaN `z` or camera coordinate is not treated as falsy. `CameraControl.PanInverse`, `CameraControl.PanAdditive` and `CameraControl.WheelInverse` hold only over reals: in doubles with sensitivity 0.02, moving by 3 and then by 4 need not land where one move by 7 does.
- DepthScale.Depth: for `maxLocal == 0` the model gives depth 0, the lower end of the range. d3's own handling of a zero-width domain is library code that is not part of this model. The depth lemmas assume `maxLocal > 0`.
- Category labels are null, undefined or strings. Numeric, boolean or date labels are not modelled. They would also collide with their string spelling at lookup.
- The entries of the `dataViews` array are never null in this model. A null entry would be handled like a missing array entry.
- The camera's quaternion z/w components, and the scene-graph updates that three.js makes when a quaternion component is written, are not modelled. The handlers change only x and y.
- The constructor's console log, the WebGL renderer it creates and the canvas it appends to the host element are not modelled. `Visual.Construct` keeps only the scene, the camera pose and the scene rotation.
- Categories.BuildIndex: a category label whose text is `"__proto__"` is outside the model. The source's index is a plain object, so writing a position under `"__proto__"` goes to the inherited setter and is dropped, and reading that key gives `Object.prototype` rather than a position. The model stores and reads it like any other key, so `BuildIndex`, `ColumnIndexIsRank` and `ChartData.BarsPlaced` describe the program only for columns without that label.
- ChartData.ConvertData: measure cells and the column's `minLocal`/`maxLocal` are always numbers. A blank measure cell (`null`, which the d3 scale coerces to 0) and a value column without reported min/max (an undefined `maxLocal`, giving NaN depths) are not modelled.
