# Tiled world map viewer: viewport and tile compositing

The app shows a world map made of 256 x 256 pixel tiles stored as assets
under `world_map/{zoom}/{x}/{y}.png`. There are two core parts:

- **MapView** is an image view that can be panned by dragging and zoomed by
  pinching. It keeps a continuous scale factor in [1, 128], a pan offset and
  a discrete zoom level in [0, 7]. After every change, `updateMap` derives
  the zoom level from the scale. When the level changes, it snaps the scale
  to 2^level, rescales the offset about the view centre and constrains it.
  It then asks the tile provider for a composite of the visible tiles.
- **MapTileProvider.getTile** validates its request, allocates a bitmap the
  size of the view and works out a padded range of tile columns and rows.
  At zoom 0 it loads only the root tile. Otherwise it loads every tile of
  the range, column by column, and draws each one that decodes at its
  offset. It returns the composite, or null when nothing could be drawn.

The Dafny model has five modules:

| file | module | contents |
|---|---|---|
| `wrappers.dfy` | `Wrappers` | the Option type |
| `map_math.dfy` | `MapMath` | powers of two, Kotlin's `coerceIn`, `max`/`min` and `Float.toInt()` (truncation), the base-2 logarithm |
| `viewport.dfy` | `Viewport` | the view's state as a value, one pure function per transition, and the lemmas about them |
| `map_view.dfy` | `MapView` | class `MapView` with the widget's fields; each callback updates them step by step and is proved equal to its `Viewport` function; `updateMap` returns the `getTile` request it would make |
| `tile_provider.dfy` | `TileProvider` | `GetTile` with its nested loops as methods; covering functions for the cells visited, the paths opened and the draws issued; lemmas about them |

The asset store is a parameter `load: string -> Option<T>`. `None` stands
for an asset that cannot be opened or decoded. Whether the composite bitmap
can be allocated is a boolean parameter. The composite is the list of
`drawBitmap` calls made on its canvas.

Where the code does something other than what its comments and names
suggest (for instance "Constrain translation to keep map within view" at
MapView.kt:103, "Adjust scaleFactor to align with zoomLevel" at
MapView.kt:117), the model follows the code:

- **`constrainTranslation` pins the offset.** Its lower bound is
  `max(size - scaled extent, 0)`, which is never negative. The result is
  `max(lower bound, min(t, 0))`, which is therefore always the lower bound,
  whatever the offset was. A drag thus has no lasting effect on the offset.
  The contracts of `ConstrainAxis`, `Constrain` and `Drag` state this, and
  `ConstrainIgnoresTranslation` proves it.
- **Scales inside a level are not snapped.** `updateMap` snaps the scale
  only when the derived level differs from the current one. A pinch from
  scale 1 to 1.5 stays at level 0 and keeps scale 1.5
  (`SubThresholdPinchKeepsScale`).
- **The tile range truncates.** The bounds use `toInt()`, which rounds
  toward zero, not down. For a negative quotient the range can be one tile
  wider than with floor (`EndIndexTruncates`).
- **At zoom 0 the translation is ignored.** The root tile is always drawn
  at (0, 0), wherever the view has been panned. It is not drawn at the
  translated position the deeper levels use (`Composite`, `DrawRoot`).

## Model

| member | source | states |
|---|---|---|
| MapMath.Pow2 | app/src/main/java/com/example/myapplication3/MapTileProvider.kt:20 | `2.0.pow(n)` for a whole exponent is a positive integer. |
| MapMath.Max | app/src/main/java/com/example/myapplication3/MapView.kt:104-107 | `max` and `coerceAtLeast` on Float give the larger operand: at least both, and equal to one of them. It is also used at MapView.kt:143 (in `ScaleAbout`). The Int clamp `max(0, min(7, zoom))` at MapView.kt:136 is modelled by `ZoomLevelOf` instead. |
| MapMath.Min | app/src/main/java/com/example/myapplication3/MapView.kt:106-107 | `min` and `coerceAtMost` on Float give the smaller operand: at most both, and equal to one of them. It is also used at MapView.kt:143 (in `ScaleAbout`). The Int clamp `max(0, min(7, zoom))` at MapView.kt:136 is modelled by `ZoomLevelOf` instead. |
| MapMath.CoerceIn | app/src/main/java/com/example/myapplication3/MapTileProvider.kt:32-35 | `coerceIn(lo, hi)` lies in [lo, hi]: it is v inside the interval, lo below it and hi above it. |
| MapMath.Trunc | app/src/main/java/com/example/myapplication3/MapTileProvider.kt:32-35 | `toInt()` rounds toward zero: it is the floor for x >= 0 and the ceiling for x < 0. |
| MapMath.FloorLog2 | app/src/main/java/com/example/myapplication3/MapView.kt:135 | For s >= 1, the truncated base-2 logarithm k satisfies 2^k <= s < 2^(k+1). |
| Viewport.MapExtent | app/src/main/java/com/example/myapplication3/MapView.kt:99-100 | The map's side at a zoom level, 256 * 2^zoom, is at least one tile. |
| Viewport.ScaledExtent | app/src/main/java/com/example/myapplication3/MapView.kt:101-102 | The drawn map's side, `mapWidth * scaleFactor`, defined as MapExtent times the scale. It has no contract of its own: Constrain, Centre and Drag state what it is used for. |
| Viewport.Initial | app/src/main/java/com/example/myapplication3/MapView.kt:23-30 | The initial fields are valid (scale in [1, 128], zoom in [0, 7]) and settled (the zoom is the one the scale gives). |
| Viewport.ZoomLevelOf | app/src/main/java/com/example/myapplication3/MapView.kt:133-137 | The derived level is in [0, 7] and is 0 below scale 1. From 1 on, 2^level <= scale, and scale < 2^(level+1) below the top level. |
| Viewport.DeepestLevel | app/src/main/java/com/example/myapplication3/MapView.kt:136 | The search's result is the largest level up to its bound whose power of two does not exceed the scale. |
| Viewport.ZoomLevelIsTruncatedLog2 | app/src/main/java/com/example/myapplication3/MapView.kt:133-137 | For scale >= 1 the level is `min(7, truncated log2(scale))`, as `calculateZoomLevel` computes it. |
| Viewport.ZoomLevelIsLargestPower | app/src/main/java/com/example/myapplication3/MapView.kt:133-137 | For scale >= 1 and k <= 7: 2^k <= scale if and only if k <= level. |
| Viewport.ZoomLevelOfPow2 | app/src/main/java/com/example/myapplication3/MapView.kt:116-118 | A snapped scale 2^z lies in [1, 128] and gives back level z. |
| Viewport.ConstrainAxis | app/src/main/java/com/example/myapplication3/MapView.kt:104-107 | The constrained offset on one axis is `max(size - scaled extent, 0)`, whatever the prior offset; it is never negative. |
| Viewport.Constrain | app/src/main/java/com/example/myapplication3/MapView.kt:97-109 | Only the offsets change, and each becomes `max(size - scaled extent, 0)` for its axis. |
| Viewport.ConstrainIdempotent | app/src/main/java/com/example/myapplication3/MapView.kt:97-109 | Constraining twice is constraining once. |
| Viewport.ConstrainIgnoresTranslation | app/src/main/java/com/example/myapplication3/MapView.kt:104-107 | States that differ only in their offsets are constrained to the same state. |
| Viewport.ZoomAbout | app/src/main/java/com/example/myapplication3/MapView.kt:122-123 | The rescale formula `f - (f - t) * ratio`, which also appears at MapView.kt:147-148. It has no contract of its own: ZoomAboutKeepsFocus proves that it keeps the map point under the focus in place. |
| Viewport.ZoomAboutKeepsFocus | app/src/main/java/com/example/myapplication3/MapView.kt:122-123 | Rescaling the offset about a focus keeps the map point under the focus in place: (f - t') / s' == (f - t) / s. |
| Viewport.ScaleAbout | app/src/main/java/com/example/myapplication3/MapView.kt:141-148 | The scale becomes the product clamped to [1, 128], covering all three cases. The map point under the focus stays there on both axes. Nothing else changes. |
| Viewport.Recentre | app/src/main/java/com/example/myapplication3/MapView.kt:115-123 | The new level is adopted and the scale becomes 2^level. The map point at the view centre stays there. Nothing else changes. |
| Viewport.SnapZoom | app/src/main/java/com/example/myapplication3/MapView.kt:111-125 | The result is valid and settled. A state whose level already matches its scale is unchanged. Otherwise the derived level is adopted, the scale snaps to its power of two and the offsets are constrained. The drag fields are kept. |
| Viewport.SnapZoomIdempotent | app/src/main/java/com/example/myapplication3/MapView.kt:111-125 | A second `updateMap` with nothing in between changes nothing. |
| Viewport.SnappedScaleWithinLevel | app/src/main/java/com/example/myapplication3/MapView.kt:111-125 | After `updateMap`, 2^zoom <= scale, and below the top level scale < 2^(zoom+1). |
| Viewport.Pinch | app/src/main/java/com/example/myapplication3/MapView.kt:140-151 | A full `onScale` leaves a valid, settled state. It keeps the drag flag and the last pointer. If the clamped scale stays within the current level, the scale is the clamped product and the focus point stays put. If it crosses into another level, the zoom becomes that level, the scale 2^zoom and both offsets `max(size - scaled extent, 0)`. |
| Viewport.Centre | app/src/main/java/com/example/myapplication3/MapView.kt:54-63 | For a laid-out view the map's centre is placed at the view's centre on both axes. Otherwise nothing changes. Only the offsets change. |
| Viewport.Drag | app/src/main/java/com/example/myapplication3/MapView.kt:79-88 | A drag step leaves a valid, settled state. It records the pointer, keeps the drag flag and pins both offsets to `max(size - scaled extent, 0)`. From a settled state it keeps the scale and the zoom level: dragging never zooms. |
| Viewport.Touch | app/src/main/java/com/example/myapplication3/MapView.kt:70-95 | DOWN starts a drag at the pointer. MOVE is a drag step while dragging and changes nothing otherwise. UP and CANCEL end the drag. Any other action changes nothing. Validity is kept. |
| Viewport.SubThresholdPinchKeepsScale | app/src/main/java/com/example/myapplication3/MapView.kt:113-114 | A 1.5x pinch from the initial state stays at zoom 0 with scale 1.5, with no snap. |
| MapView.RequestFor | app/src/main/java/com/example/myapplication3/MapView.kt:128 | The request carries the current zoom, the view size and scale 1. Its offsets times the scale give back the view's offsets. |
| MapView.MapView.constructor | app/src/main/java/com/example/myapplication3/MapView.kt:22-33 | A new view has the initial state, which is valid and settled. It has no provider and no size yet. |
| MapView.MapView.SetTileProvider | app/src/main/java/com/example/myapplication3/MapView.kt:43-46 | From a valid, settled state (kept): installs the provider. The new state is `SnapZoom` of the old one, and a request for it is made. |
| MapView.MapView.OnSizeChanged | app/src/main/java/com/example/myapplication3/MapView.kt:48-52 | From a valid, settled state (kept): adopts the new size. The new state is `SnapZoom(Centre(old))`, and a request is made if there is a provider. |
| MapView.MapView.OnPosted | app/src/main/java/com/example/myapplication3/MapView.kt:37-40 | From a valid, settled state (kept): the posted block's new state is `SnapZoom(Centre(old))`, and a request is made if there is a provider. |
| MapView.MapView.OnDraw | app/src/main/java/com/example/myapplication3/MapView.kt:65-68 | From a valid, settled state (kept): each frame's new state is `SnapZoom(old)`, and a request is made if there is a provider. |
| MapView.MapView.AdjustInitialPosition | app/src/main/java/com/example/myapplication3/MapView.kt:54-63 | The new state is `Centre(old)` for the current size. |
| MapView.MapView.OnTouchEvent | app/src/main/java/com/example/myapplication3/MapView.kt:70-95 | From a valid, settled state, the new state is `Touch(old, event)` and stays settled. The scale and zoom level are unchanged for every event, so dragging never zooms. The event is reported handled. A request is made exactly for a MOVE during a drag when a provider is installed. |
| MapView.MapView.DragTo | app/src/main/java/com/example/myapplication3/MapView.kt:79-88 | The new state is `Drag(old, x, y)`. From a settled state the scale and zoom level are unchanged. A request is made if there is a provider. |
| MapView.MapView.ConstrainTranslation | app/src/main/java/com/example/myapplication3/MapView.kt:97-109 | The new state is `Constrain(old)`. |
| MapView.MapView.UpdateMap | app/src/main/java/com/example/myapplication3/MapView.kt:111-131 | The new state is `SnapZoom(old)`, so it is valid and settled. The request is made exactly when a provider is installed. |
| MapView.MapView.OnScale | app/src/main/java/com/example/myapplication3/MapView.kt:139-152 | From any valid state, the new state is `Pinch(old, multiplier, focus)`, which is settled. The gesture is reported handled, and a request is made if there is a provider. |
| TileProvider.DigitChar | app/src/main/java/com/example/myapplication3/MapTileProvider.kt:60 | A digit's character is '0'..'9' and has that digit's code offset. |
| TileProvider.NatToString | app/src/main/java/com/example/myapplication3/MapTileProvider.kt:60 | A template's rendering of an Int is a non-empty run of decimal digits without a leading zero. |
| TileProvider.IntToString | app/src/main/java/com/example/myapplication3/MapTileProvider.kt:60 | A template's rendering of an Int is non-empty and starts with '-' exactly for a negative number. For a non-negative one it is NatToString. |
| TileProvider.TilePath | app/src/main/java/com/example/myapplication3/MapTileProvider.kt:60 | The template `world_map/$zoomLevel/$tileX/$tileY.png`. It has no contract of its own: TilePathInjective and RootTilePathIsTilePath state its properties. |
| TileProvider.NatToStringRoundTrip | app/src/main/java/com/example/myapplication3/MapTileProvider.kt:60 | Reading the rendered digits back gives the number. |
| TileProvider.SlashBeforeDigit | app/src/main/java/com/example/myapplication3/MapTileProvider.kt:60 | A path component cut short by '/' differs from a longer run of digits. |
| TileProvider.SplitAtSlash | app/src/main/java/com/example/myapplication3/MapTileProvider.kt:60 | A run of digits followed by '/' is recovered from the string. |
| TileProvider.TilePathInjective | app/src/main/java/com/example/myapplication3/MapTileProvider.kt:60 | Two tiles of one zoom level with non-negative coordinates share a path only when they are the same tile. |
| TileProvider.RootTilePathIsTilePath | app/src/main/java/com/example/myapplication3/MapTileProvider.kt:41 | The literal root path is the general path of tile (0, 0) at zoom 0. |
| TileProvider.ValidInput | app/src/main/java/com/example/myapplication3/MapTileProvider.kt:14 | The guard: zoom >= 0, a positive view size and a positive scale factor. It has no contract of its own; GetTile's first ensures states what happens when it fails. |
| TileProvider.StartIndex | app/src/main/java/com/example/myapplication3/MapTileProvider.kt:32-33 | A start bound lies in [0, tilesPerSide - 1]. |
| TileProvider.EndIndex | app/src/main/java/com/example/myapplication3/MapTileProvider.kt:34-35 | An end bound lies in [0, tilesPerSide - 1]. |
| TileProvider.VisibleRange | app/src/main/java/com/example/myapplication3/MapTileProvider.kt:31-35 | All four bounds lie in the grid of 2^zoom tiles per side. For a non-negative view size, start <= end on each axis. This holds under exact integer arithmetic; see "## Left out" for the 32-bit wrap. |
| TileProvider.VisibleTilesCovered | app/src/main/java/com/example/myapplication3/MapTileProvider.kt:31-35 | A column, or row, of the grid whose pixels overlap the view lies between the start and end bounds. |
| TileProvider.NineTileExample | app/src/main/java/com/example/myapplication3/MapTileProvider.kt:31-35 | A 300 x 300 view at zoom 2 offset by (-100, -50) gets columns 0..2 by rows 0..2. |
| TileProvider.EndIndexTruncates | app/src/main/java/com/example/myapplication3/MapTileProvider.kt:34 | With the map 100 px right of a 50 px view, the end column is 1, where rounding down would give 0. |
| TileProvider.ColumnCells | app/src/main/java/com/example/myapplication3/MapTileProvider.kt:59 | One pass of the inner loop visits yTo - yFrom cells, or none when the range is empty. |
| TileProvider.ColumnCellsAt | app/src/main/java/com/example/myapplication3/MapTileProvider.kt:59 | The j-th cell of a column pass is row yFrom + j. |
| TileProvider.GridCells | app/src/main/java/com/example/myapplication3/MapTileProvider.kt:58-59 | The cells the nested loop visits, column by column. It has no contract of its own: GridCellsMembership and GridCellsOrdered state which cells and in what order. |
| TileProvider.GridCellsMembership | app/src/main/java/com/example/myapplication3/MapTileProvider.kt:58-59 | A cell is visited if and only if it lies in the rectangle. |
| TileProvider.GridCellsOrdered | app/src/main/java/com/example/myapplication3/MapTileProvider.kt:58-59 | The cells are visited in strictly increasing column-major order, so each cell exactly once. |
| TileProvider.PathsOf | app/src/main/java/com/example/myapplication3/MapTileProvider.kt:60 | One path is opened per visited cell. |
| TileProvider.PathsOfAt | app/src/main/java/com/example/myapplication3/MapTileProvider.kt:60 | The i-th path opened is the path of the i-th cell visited. |
| TileProvider.TileDraw | app/src/main/java/com/example/myapplication3/MapTileProvider.kt:64-65 | A tile drawn at `left = x * 256 + tx`, `top = y * 256 + ty`. It has no contract of its own; DrawsOfSound and DrawsOfComplete use it. |
| TileProvider.DrawOf | app/src/main/java/com/example/myapplication3/MapTileProvider.kt:62-70 | One cell's draw, or none when its tile fails to load. It has no contract of its own; DrawTile's ensures ties the loop body to it. |
| TileProvider.DrawsOf | app/src/main/java/com/example/myapplication3/MapTileProvider.kt:58-70 | The draws of a run of cells in order. It has no contract of its own: DrawsOfSound, DrawsOfComplete, DrawsOfEmptyIff and DrawsOfAppend characterise it. |
| TileProvider.PathsOfAppend | app/src/main/java/com/example/myapplication3/MapTileProvider.kt:58-60 | The paths of two runs of cells are those of the first followed by those of the second. |
| TileProvider.DrawsOfAppend | app/src/main/java/com/example/myapplication3/MapTileProvider.kt:58-70 | The draws of two runs of cells are those of the first followed by those of the second. |
| TileProvider.GridPathsDistinct | app/src/main/java/com/example/myapplication3/MapTileProvider.kt:58-60 | No asset is opened twice: the paths of a grid of non-negative cells are pairwise distinct. |
| TileProvider.DrawsOfEmptyIff | app/src/main/java/com/example/myapplication3/MapTileProvider.kt:57-77 | Nothing is drawn if and only if no visited tile loads, which is when `anyTileLoaded` stays false. |
| TileProvider.DrawsOfSound | app/src/main/java/com/example/myapplication3/MapTileProvider.kt:62-70 | Every draw is of a visited tile that loaded, at `(x * 256 + tx, y * 256 + ty)`. |
| TileProvider.DrawsOfComplete | app/src/main/java/com/example/myapplication3/MapTileProvider.kt:62-73 | Every visited tile that loads is drawn, at its position. |
| TileProvider.Composite | app/src/main/java/com/example/myapplication3/MapTileProvider.kt:40-75 | The draws of a valid, allocated `getTile`: the root tile at (0, 0) at zoom 0, and the loop's draws over the visible range below that. It has no contract of its own: GetTile's last ensures and the two Composite lemmas state its properties. |
| TileProvider.RootComposite | app/src/main/java/com/example/myapplication3/MapTileProvider.kt:40-53 | At zoom 0 the composite is the root asset's draw at (0, 0) when it loads, and empty otherwise. |
| TileProvider.CompositeShowsVisibleTiles | app/src/main/java/com/example/myapplication3/MapTileProvider.kt:31-75 | Every loadable tile of the grid whose square overlaps the view is on the composite. At zoom > 0 it is drawn at its translated position. At zoom 0 the tile is the root, and the composite is that one draw at (0, 0). |
| TileProvider.CompositeDrawsOnlyGridTiles | app/src/main/java/com/example/myapplication3/MapTileProvider.kt:31-75 | Every draw on the composite is of a loaded tile inside the 2^zoom grid. At zoom > 0 it is at the tile's translated position, and at zoom 0 at (0, 0). |
| TileProvider.ColumnCellsSnoc | app/src/main/java/com/example/myapplication3/MapTileProvider.kt:59 | One more inner iteration appends the next row's cell. |
| TileProvider.GridCellsSnoc | app/src/main/java/com/example/myapplication3/MapTileProvider.kt:58 | One more outer iteration appends the next column's cells. |
| TileProvider.GridColumnStep | app/src/main/java/com/example/myapplication3/MapTileProvider.kt:58-75 | After one more column, the paths and draws are the earlier ones followed by that column's. |
| TileProvider.DrawTile | app/src/main/java/com/example/myapplication3/MapTileProvider.kt:60-73 | Opens the tile's path. The canvas gains exactly this tile's draw when it loads and nothing when it fails; the loaded flag says which. |
| TileProvider.DrawColumn | app/src/main/java/com/example/myapplication3/MapTileProvider.kt:59-74 | The inner loop opens the column's paths top to bottom and draws each tile that loads. Its flag is set exactly when something was drawn. |
| TileProvider.DrawTiles | app/src/main/java/com/example/myapplication3/MapTileProvider.kt:57-75 | The nested loop opens the paths of the whole range in column-major order and draws exactly the tiles that load. `anyTileLoaded` is set exactly when the canvas is non-empty. |
| TileProvider.DrawRoot | app/src/main/java/com/example/myapplication3/MapTileProvider.kt:40-53 | The zoom-0 branch opens only the root path. It returns the draw at (0, 0) when the root loads, and null otherwise. |
| TileProvider.GetTile | app/src/main/java/com/example/myapplication3/MapTileProvider.kt:12-82 | Invalid input or a failed allocation gives null and opens nothing. Zoom 0 opens only the root path and draws it at (0, 0) if it loads, else null. Otherwise it opens every path of the visible range in loop order and returns the draws, or null when there are none. For every valid, allocated request the result is `Composite` of the request, or null when that is empty. |

## Left out

- MainActivity, layout inflation and the Android view machinery are not part of this model. Also not part of it: `super` calls, `scaleType`, `setImageBitmap`, logging, and scheduling the init block with `post` (the block is the `OnPosted` method).
- OnTouchEvent: the model does not decode `MotionEvent`; the event arrives already classified. The `ScaleGestureDetector` runs first in `onTouchEvent` and may call `onScale` during that run. It is not modelled: a pinch is a separate `OnScale` call that receives the detector's multiplier and focus.
- GetTile: bitmaps, canvases and pixels are not modelled. The composite is its list of `drawBitmap` calls, and recycling bitmaps is not modelled. A tile whose asset is missing or does not decode is `None` from `load`. The Kotlin code reaches the same outcome through an exception that its `catch` swallows: `assetManager.open` throws for a missing asset before `use` runs, and for an asset that does not decode, `decodeStream` returns null, so `drawBitmap` throws inside `use`.
- GetTile: whether `Bitmap.createBitmap` succeeds is the `canAllocate` parameter. An `OutOfMemoryError`, which the code does not catch, is not modelled.
- VisibleRange, StartIndex, EndIndex: `Float.toInt()` saturates at Int.MIN_VALUE / Int.MAX_VALUE, and the `- 1` / `+ 1` after it then wraps the 32-bit Int. This happens at any zoom level once a translation reaches about 2^39 pixels in magnitude. Example: at zoom 1, with translateX = -6e11, the source's end column wraps to 0, the range 1..0 is empty and nothing is loaded, while the model loads column 1. Neither the saturation nor the wrap is modelled. MapView pins the offsets to [0, view size] only after a drag or a level change, through `constrainTranslation` (MapView.kt:84, 124). Re-centring in `adjustInitialPosition` (MapView.kt:59-60) and a pinch that stays within a level (MapView.kt:147-149) leave them unconstrained. Re-centring gives `(size - scaled extent) / 2`, which is negative once the map is wider than the view. A pair of pinches, one up and one back down, about different foci moves an offset by less than half the view size. Offsets can therefore drift, but they stay far below 2^39 pixels for any realistic number of gestures.
- GetTile: requires zoomLevel <= 23, where 2^zoom and tile coordinates times 256 fit in a 32-bit Int. Int overflow and the saturating Float-to-Int conversion at deeper levels are not modelled.
- Float arithmetic is modelled with exact reals: no rounding, no NaN, no infinity, and no loss in `(tileX * tileSize + translateX).toFloat()`.
- ZoomLevelOf: `ln(scale) / ln(2)` truncated is modelled as the exact truncated base-2 logarithm. Floating-point error at exact powers of two is not modelled. Scales below 1 never occur in a valid state, and they give level 0.
- The fields `mapWidth` and `mapHeight` are always written just before they are read, in the same call, so they are local values of the model.
- GetTile: the nested loop is split into three methods: `DrawTiles` (columns), `DrawColumn` (rows) and `DrawTile` (one tile). They receive the zoom level's path function `PathAt(zoom)` from `GetTile`.
- GetTile: the provider's `scaleFactor` argument is only validated, as in the code.
