# Earring try-on editor: a verified model of its state and handlers

The editor lets a user load a photo, pan and zoom it, and place, drag,
resize, rotate and delete earring stickers on it. All of its logic sits in
`app.js`. Module-level variables hold the state, and the pointer, wheel,
slider and button handlers change it one step at a time. This project models
that state and those handlers in Dafny and proves what they promise.

- `transform.dfy` (module `Transform`): the viewport `canvas = image * scale + offset`,
  and its inverse `canvasToImageCoords`. It also holds the views that
  anchor-preserving zoom, wheel zoom, fit-to-canvas and panning install.
- `scene.dfy` (module `SceneModel`): the catalog of 39 earring types and a placed
  earring. It also holds the hit test that scans from the top item down, and
  the scene (the items in z-order plus the selection index) with its
  operations place, delete, field write and move.
- `app.dfy` (module `App`): class `Editor`. Its fields are the module-level
  variables of `app.js`, plus the canvas size and the size, length and rotation
  slider values, which the source keeps in the DOM (placement reads the sliders
  and selection writes them). It has one method per handler. `Valid()` holds the
  central invariant: the selection index is -1 or a valid index, and `drawCanvas`
  indexes with it unguarded. Two client methods replay two sessions: fitting a
  1600 x 1200 photo into an 800 x 600 canvas, and placing, finding and deleting
  one earring.
- `wrappers.dfy`: `Option`, for a JavaScript reference that may be null.

Coordinates and scale are `real`, so the algebraic facts hold exactly where
JavaScript's doubles only approximate them. Each placed earring is a `Jewelry`
datatype value in `placed`. The handlers' in-place field writes become
updates of that sequence. No other reference to a placed item exists, so no
sharing is lost. The hit test's `Math.sqrt(d) < r` is written
`0 < r && d < r * r`, which is exactly equivalent (`ContainsIsDistanceTest`).

The code's behaviour differs in places from what one might expect of such an
editor (clear resets the view, every zoom clamps, length follows size). The
model follows the code:

- `clearAll` drops the background before it calls `resetImageTransform`, so the
  reset returns early and scale and offset are not reset (app.js:343, app.js:263).
- `handleSizeChange` does not keep `length` in step with `size` (app.js:231-236).
  The hit test still uses `max(size, length)`, so a shrunk item keeps its old hit
  circle (`ShrunkItemKeepsHitSize`).
- Drawing recomputes length from size for kinds without `scalableLength`
  (app.js:380, app.js:390), so the selection box of such an item is square
  (`SelectionBox`), whatever its stored length.
- The fitted scale is not clamped to [0.5, 5] (app.js:266). The zoom slider path
  does not clamp either (app.js:224-229). Only the wheel clamps (app.js:219).
- `selectJewelryOnCanvas` does not check its index. Its callers pass valid ones,
  which is its precondition here.
- `deleteSelectedJewelry` and `clearAll` remove items first and deselect after.
  For that moment the selection may dangle. `WellFormed()` is the invariant
  without the selection part, and it is all that `DeselectJewelryOnCanvas` needs.
- No catalog entry sets `scalableLength`, so a new item's length is always its size.

## Model

| member | source | states |
|---|---|---|
| Transform.ToImage | app.js:132-134 | canvasToImageCoords is a right inverse of the image-to-canvas map: mapping its result back with `* scale + offset` returns the canvas point |
| Transform.ImageRoundTrip | app.js:132-134 | the other direction: an image point mapped to the canvas and back is unchanged |
| Transform.ZoomedView | app.js:253-257 | after zoomAtPoint's update the scale is the requested one and the anchor maps to the same image point as before |
| Transform.ZoomedViewUnique | app.js:253-257 | any view with the requested scale that keeps the anchor's image point is exactly the zoomed view (the offsets are forced) |
| Transform.WheelScale | app.js:218-219 | the wheel's new scale lies in [0.5, 5]; it is scale - deltaY/1000 when that is in range, 0.5 below it and 5 above it |
| Transform.FittedView | app.js:264-268 | the fitted scale is the smaller of the width and height ratios, the scaled image fits in the canvas, and left/right and top/bottom margins are equal |
| Transform.FitShowsWholeImage | app.js:262-268 | on a non-empty canvas the fitted scale is positive, offsets are non-negative, and the canvas corners map to image points bracketing the whole image (no cropping) |
| Transform.Panned | app.js:202-205 | panning shifts the canvas position of every image point by exactly the pointer's delta and keeps the scale; `PanFollowsPointer` is its property |
| Transform.PanFollowsPointer | app.js:194-204 | panning by the pointer delta keeps the image point that was under the pointer under it |
| SceneModel.TwoDigits | app.js:36-37 | the two-character zero-padded number is two decimal digits whose value is n |
| SceneModel.Catalog | app.js:35-65 | the catalog has 39 entries and none sets scalableLength |
| SceneModel.CatalogNamesDistinct | app.js:67-74 | different catalog entries have different names, so each gets its own image-cache key |
| SceneModel.Jewelry.HitSize | app.js:290 | the hit diameter is the larger of size and length, or size when length is 0 (falsy) |
| SceneModel.Contains | app.js:288-291 | an item is hit only when its hit size is positive, and an item of positive hit size is hit at its own position |
| SceneModel.ContainsIsDistanceTest | app.js:288-291 | the square-root-free test agrees with `distance < max(size, length)/2` (size when length is 0) for the true distance |
| SceneModel.Topmost | app.js:285-296 | the backward scan returns -1 or an index of the list |
| SceneModel.TopmostCorrect | app.js:285-296 | the scan's result contains the point and no later (higher) item does; -1 means no item contains it |
| SceneModel.TopmostUnique | app.js:285-296 | that characterisation has exactly one solution, so any correct hit test agrees with the scan |
| SceneModel.TopmostPrefersLater | app.js:286-293 | of two items under the point, the later-placed one (or a later still) is found, never the earlier |
| SceneModel.Place | app.js:273-283 | placement appends one item at the point with rotation 0, the slider's size, length equal to size unless scalableLength is set, keeps all earlier items and selects the new last index |
| SceneModel.PlacedItemIsHit | app.js:273-296 | a freshly placed item of positive size is what the hit test finds at its own position |
| SceneModel.DeleteSelected | app.js:322-327 | with a selection exactly that item is removed, the length drops by one, others keep their order and the selection becomes -1; without one nothing changes |
| SceneModel.SetField | app.js:231-250 | a slider write sets that field of the selected item only, leaves every other field and item alone, and is a no-op without a selection |
| SceneModel.ShrunkItemKeepsHitSize | app.js:231-236 | shrinking an item whose length equals its size leaves length behind, so its hit diameter stays the old size |
| SceneModel.MoveSelected | app.js:198-201 | dragging moves only the selected item, by exactly the given image-space delta, keeping its kind, size, length and rotation |
| SceneModel.DragFollowsPointer | app.js:194-201 | dividing the canvas delta by the scale moves the item's canvas position by exactly the pointer's delta |
| App.ShowSelected | app.js:302-310 | selecting an item shows its size and rotation on the sliders; the length slider shows its length only for a `scalableLength` kind and otherwise keeps its value |
| App.Editor.constructor | app.js:22-31 | the initial state: no background, no items, no selection, nothing armed, scale 1 at offset (0, 0), not dragging or panning |
| App.Editor.ArmPaletteItem | app.js:115-119 | clicking a palette entry arms that catalog item and changes nothing else |
| App.Editor.LoadBackground | app.js:159-165 | a loaded photo becomes the background and the view is fitted to it |
| App.Editor.HandleInteractionStart | app.js:170-189 | a hit selects the topmost item and starts dragging; else an armed item is placed at the image point and disarmed without panning; else panning starts and the selection clears; the invariant holds in every branch |
| App.Editor.HandleInteractionMove | app.js:191-208 | outside drag and pan nothing changes; dragging a selected item moves it by delta/scale; otherwise panning shifts the offset by delta; the anchor becomes the pointer |
| App.Editor.HandleInteractionEnd | app.js:210-213 | pointer up clears both the dragging and the panning flag and nothing else |
| App.Editor.HandleWheel | app.js:215-222 | without a background nothing changes; otherwise the view is zoomed about the mouse to the clamped wheel scale, which lies in [0.5, 5] |
| App.Editor.HandleZoomSlider | app.js:224-229 | without a background nothing changes; otherwise the view is zoomed about the canvas centre to the slider's value, unclamped |
| App.Editor.HandleSizeChange | app.js:231-236 | the slider value becomes the selected item's size (length untouched); no-op on the scene without a selection |
| App.Editor.HandleLengthChange | app.js:238-243 | the slider value becomes the selected item's length; no-op on the scene without a selection |
| App.Editor.HandleRotationChange | app.js:245-250 | the slider value becomes the selected item's rotation; no-op on the scene without a selection |
| App.Editor.ZoomAtPoint | app.js:253-260 | the scale becomes the requested one and the anchor still maps to the same image point; the scene is unchanged |
| App.Editor.ResetImageTransform | app.js:262-271 | without a background nothing changes; otherwise the view becomes the fitted, centred view |
| App.Editor.PlaceNewJewelry | app.js:273-283 | the scene becomes the placement of the armed item at the point with the sliders' values; the new item's length equals its size; the sliders show it |
| App.Editor.GetJewelryAtPosition | app.js:285-296 | the loop returns -1 or an in-range index whose item contains the point with no higher item containing it; -1 only if no item contains it |
| App.Editor.SelectJewelryOnCanvas | app.js:298-313 | the given valid index becomes the selection and the sliders show that item |
| App.Editor.DeselectJewelryOnCanvas | app.js:315-320 | the selection becomes -1, restoring the invariant even from a dangling index |
| App.Editor.DeleteSelectedJewelry | app.js:322-327 | the scene becomes DeleteSelected of the old scene; the rest of the state is unchanged |
| App.Editor.DownloadDesign | app.js:329-340 | the snapshot is taken with no selection, and afterwards the previous selection is restored (the restore guard always passes under the invariant) |
| App.Editor.ClearAll | app.js:342-349 | background and items are dropped and the selection cleared, while scale and offset keep their old values |
| App.Editor.SelectionBox | app.js:388-395 | the highlight exists exactly when an item is selected, its centre maps back to that item's image position, its height is size times scale, its width is length (for `scalableLength` kinds) or size times scale, so it is square for every catalog kind, and its rotation is the item's |

## Left out

- Canvas drawing (`drawCanvas`, the catalog `draw` callbacks) is left out because it is pixel output through the 2D-context API. Only the selection highlight's geometry is kept (`SelectionBox`).
- DOM lookups, listener wiring, palette construction, the show/hide of control sections and the palette highlight are presentation.
- `resizeCanvas` is left out: the canvas size is fixed when an `Editor` is constructed.
- A zero-size canvas is excluded (the constructor requires positive width and height, and `WellFormed()` keeps them). The source sizes the canvas from its container (app.js:86-88), which can be empty; `resetImageTransform` would then set scale 0 and `canvasToImageCoords` would divide by zero.
- The zoom slider's displayed value (app.js:258, app.js:269) is left out. Browsers clamp it to the slider's range, which is set in page markup that is not part of this model.
- `FileReader`/`Image` loading and the earring image cache are asynchronous browser I/O. Only a successful decode is modelled (`LoadBackground`). The code puts a new `Image` in `backgroundImage` before it decodes. A failed decode therefore leaves a zero-size background, and its reset would divide by zero. This path is not modelled.
- `getEventCoordinates`, `getBoundingClientRect`, the download link and `toDataURL` are browser calls. Pointer positions are given canvas-space reals, and the snapshot is only the selection it was taken with.
- IEEE double rounding, NaN and `parseInt`/`parseFloat` of slider strings are left out. Slider values arrive as `int` (size, length, rotation) or `real` (zoom).
- App.Editor.HandleZoomSlider: requires a positive value, because the slider's own range, set in page markup, keeps the scale positive, and the model's invariant needs that.
- The browser clamps slider values assigned on selection to each slider's range. This is not modelled: a selected item's size and rotation are copied to the sliders as they are.
