# Drawing-board engine, modelled in Dafny

This project models the drawing canvas of the Draweon graphics editor
(`project/src/components/DrawingBoard.tsx`). It covers four parts:

- **Shape geometry** (`geometry.dfy`, module `Geometry`). `drawShape` turns the tool id, the gesture's
  start point and the current pointer position into the path commands it issues on the 2D
  context: moveTo, lineTo, rect, arc and closePath. `Outline` is the function that specifies it.
  `DrawShape` and `TracePolygon` are the same computation written with the source's loop over
  the polygon's sides, and each is proved equal to `Outline`. Math.cos, Math.sin, Math.atan2 and
  Math.sqrt are not defined. They come in as a `MathLib` parameter. Everything is proved for
  every choice of them. Two statements need their real ranges and assume them through
  `WellBehaved`: the non-negative radius in `CircleIsFullArc` and the barb bound in
  `ArrowheadIsBounded`. `Tool` lists the palette's tool ids from `project/src/App.tsx`, plus
  `rectangle`, which `drawShape` also handles.
- **Pointer mapping and canvas sizing** (`mapping.dfy`, module `Mapping`). A client position maps
  to `(clientX - rect.left) * (canvas.width / rect.width)`, and the same for y. Mouse-down and
  mouse-move use this same function. The backing store gets `floor(size * devicePixelRatio)`
  pixels on each axis.
- **Undo history** (`history.dfy`, module `History`). `history` and `historyIndex` are modelled as
  a value `Timeline(entries, cursor)`. It has `Push` (saveState), `Undo`, `Redo` and `Reset`
  (the seeding done on resize). Lemmas cover sequences of commits, undos and redos.
- **The board** (`board.dfy`, module `Board`). Class `DrawingBoard` holds the component's state:
  `history`, `historyIndex`, `isDrawing`, `startPos` and `tempImageData`. It also holds the
  canvas size and the 2D context's path, styles and bitmap. Each event handler is a method
  whose `ensures` gives the whole new state in terms of the old one and of the functions
  above. Every handler keeps the invariant `Synced`. When the canvas has a context and pixels,
  the cursor points at an entry and every entry has the canvas's size. Outside a gesture, the
  bitmap shown is also the entry under the cursor. So after each `Undo` and `Redo` the board
  shows `History.Current` of its history. The round-trip lemmas about `History` therefore
  carry over to the displayed bitmap.

The bitmap is a `Raster` value. It is the blank backing store plus the painting calls made on
it since: stroke, fill and putImageData. A `getImageData` snapshot is just the current value.
A `putImageData` of a snapshot with the canvas's own size makes the bitmap equal to that
snapshot. Per the HTML canvas standard, `getImageData` throws an IndexSizeError on a canvas with
zero width or height. The handlers that call it (saveState, startDrawing for shape tools,
stopDrawing, clearCanvas) therefore return `thrown`. When it is set, the rest of the handler is
skipped and the state updates made before the call are kept.

The model follows the code as written. In particular:

- The backing-store size is `Math.floor(size * ratio)` (DrawingBoard.tsx:38-39).
- `fill()` is called whenever `fillShape` is set. This includes `line` and `arrow`
  (DrawingBoard.tsx:215-216, `Board.Preview`).
- `clearCanvas` uses `clearRect`. The bitmap becomes blank (transparent), not the background
  colour (DrawingBoard.tsx:240).
- A resize to a zero size still reassigns the canvas dimensions, which clears the bitmap. Only
  re-seeding the history is guarded (DrawingBoard.tsx:36-51, `Board.DrawingBoard.UpdateCanvasSize`).
  After such a resize the history is kept but the bitmap is blank, so the bitmap shown no longer
  matches the entry under the cursor. That is why the board invariant `Synced` ties the two together
  only when the canvas has pixels.
- Square, rectangle and circle paths are not followed by `closePath`. The arc is a full turn
  but is not closed (DrawingBoard.tsx:122-132).
- Leaving the canvas mid-gesture commits the gesture, because `onMouseLeave` is the same handler
  as `onMouseUp` (DrawingBoard.tsx:263-264).

## Model

| member | source | states |
|---|---|---|
| `Geometry.ToolOf` | project/src/App.tsx:7-17 | a recognised id names the tool whose id it is |
| `Geometry.ToolOfId` | project/src/App.tsx:7-17 | every tool's id is recognised as that tool, so the ids are distinct |
| `Geometry.IsFreehand` | project/src/components/DrawingBoard.tsx:110 | brush and eraser are the freehand tools; the same test picks the branch at lines 207 and 227 |
| `Geometry.Outline` | project/src/components/DrawingBoard.tsx:119-192 | the drawShape switch, case by case; an id that names no shape tool gives the empty path |
| `Geometry.DrawShape` | project/src/components/DrawingBoard.tsx:119-192 | drawShape issues exactly the commands of `Outline` for the shape, start point and pointer |
| `Geometry.TracePolygon` | project/src/components/DrawingBoard.tsx:139-164 | the loop over the sides builds one moveTo at angle 0, a lineTo per vertex and closePath |
| `Geometry.SidesAreLines` | project/src/components/DrawingBoard.tsx:143-149 | the side loop emits exactly k lineTo commands, the j-th going to vertex j+1, and nothing else |
| `Geometry.CountsConcat` | project/src/components/DrawingBoard.tsx:119-192 | counts of moveTo, lineTo and closePath add up over consecutive path pieces |
| `Geometry.SquareIsIsotropic` | project/src/components/DrawingBoard.tsx:122-125 | a square's width and height are both abs(x - start.x) and do not depend on the vertical drag |
| `Geometry.RectangleSpansDrag` | project/src/components/DrawingBoard.tsx:126-128 | a rectangle's corners are the start point and the current point (signed size) |
| `Geometry.CircleIsFullArc` | project/src/components/DrawingBoard.tsx:129-132 | a circle is one arc from 0 to 2*PI around the start point with radius the drag distance |
| `Geometry.TriangleMirrorsAcrossApex` | project/src/components/DrawingBoard.tsx:133-138 | apex at the start point, one base vertex at the pointer, the third at the same y and mirrored across the apex's vertical; the path is closed |
| `Geometry.PolygonCommandCounts` | project/src/components/DrawingBoard.tsx:139-164 | pentagon: 1 moveTo, 5 lineTo, closePath; hexagon: 1 moveTo, 6 lineTo, closePath; lineTo j goes to vertex j |
| `Geometry.PolygonCounts` | project/src/components/DrawingBoard.tsx:140-150 | an n-sided polygon path has n+2 commands: one moveTo, n lineTo to vertices 1..n, then closePath |
| `Geometry.PolygonAngles` | project/src/components/DrawingBoard.tsx:142-148 | the first vertex is at angle 0 and the last lineTo is at angle 2*PI |
| `Geometry.HeadLength` | project/src/components/DrawingBoard.tsx:166-168 | the arrowhead length is min(0.3*length, 20): at most 20, at most 0.3*length, and equal to one of them |
| `Geometry.ArrowIsThreeSegments` | project/src/components/DrawingBoard.tsx:165-186 | an arrow is the shaft and two barbs from the tip: 3 moveTo, 3 lineTo, no closePath |
| `Geometry.ArrowheadIsBounded` | project/src/components/DrawingBoard.tsx:166-185 | with real sine, cosine and square root, each barb end lies within 20 pixels of the tip on each axis |
| `Geometry.LineIsOneSegment` | project/src/components/DrawingBoard.tsx:187-190 | a line is exactly moveTo(start), lineTo(pointer) |
| `Geometry.OutlineEmptyIff` | project/src/components/DrawingBoard.tsx:121-191 | the path is empty exactly for brush, eraser and ids that name no tool (the switch has no default) |
| `Mapping.PhysicalSize` | project/src/components/DrawingBoard.tsx:32-39 | the backing-store size is the floor of size times ratio; it is 0 exactly when that product is below 1 |
| `Mapping.ToCanvasAxis` | project/src/components/DrawingBoard.tsx:104 | the offset from the box edge is scaled by canvas pixels per CSS pixel; the near edge maps to 0 and the far edge to the pixel count |
| `Mapping.ToCanvasPoint` | project/src/components/DrawingBoard.tsx:103-105 | the canvas point divides the canvas in the same proportion as the pointer divides the bounding box, on both axes |
| `Mapping.AxisRoundTrip` | project/src/components/DrawingBoard.tsx:199 | on a non-empty backing store, mapping one axis to the canvas and back (or back and forth) is the identity |
| `Mapping.MappingIsBijective` | project/src/components/DrawingBoard.tsx:198-200 | the pointer mapping and its inverse undo each other on both axes |
| `Mapping.MappingIsMonotoneAndEdgeExact` | project/src/components/DrawingBoard.tsx:199-200 | the mapping is strictly increasing; the top-left corner maps to (0,0) and the bottom-right corner to (canvas.width, canvas.height) |
| `Mapping.HighDensityExample` | project/src/components/DrawingBoard.tsx:32-39 | a 300x300 container at ratio 2 gets 600x600 pixels; its corners map to (0,0) and (600,600) |
| `History.Empty` | project/src/components/DrawingBoard.tsx:16-17 | the initial history has no entry and cursor -1, which satisfies the history invariant |
| `History.CanUndo` | project/src/components/DrawingBoard.tsx:270 | the undo button is enabled exactly when the cursor is above 0 |
| `History.CanRedo` | project/src/components/DrawingBoard.tsx:277 | the redo button is enabled exactly when the cursor is below the last entry |
| `History.ButtonsEnabledIffEffective` | project/src/components/DrawingBoard.tsx:270-281 | each button is enabled exactly when pressing it would change the history |
| `History.Push` | project/src/components/DrawingBoard.tsx:69-77 | saveState keeps entries 0..cursor, drops later ones and appends the snapshot; the cursor moves to it, and redo is unavailable afterwards |
| `History.Undo` | project/src/components/DrawingBoard.tsx:79-87 | undo steps the cursor back by one only when it is above 0; otherwise nothing changes; entries never change |
| `History.Redo` | project/src/components/DrawingBoard.tsx:89-97 | redo steps the cursor forward by one only when it is below the last entry; otherwise nothing changes |
| `History.Reset` | project/src/components/DrawingBoard.tsx:47-51 | the re-seeded history holds exactly the blank canvas with cursor 0; undo and redo are both unavailable |
| `History.UndoThenRedo` | project/src/components/DrawingBoard.tsx:79-97 | an available undo followed by redo restores the same cursor and entries |
| `History.RedoThenUndo` | project/src/components/DrawingBoard.tsx:89-97 | an available redo followed by undo restores the same cursor and entries |
| `History.PushAllAppends` | project/src/components/DrawingBoard.tsx:69-77 | n > 0 commits keep the entries up to the cursor, append the n snapshots and leave the cursor on the last one |
| `History.UndoNSteps` | project/src/components/DrawingBoard.tsx:79-87 | k undos from cursor c >= k land on c-k and keep the entries |
| `History.RedoNSteps` | project/src/components/DrawingBoard.tsx:89-97 | k redos with k entries ahead land on cursor+k and keep the entries |
| `History.CommitsUndoneAndRedone` | project/src/components/DrawingBoard.tsx:69-97 | after n commits, n undos show the snapshot that was current before them, and n redos restore the final history exactly |
| `History.UndoThenCommitPrunes` | project/src/components/DrawingBoard.tsx:69-87 | undoing k steps and then committing discards the k undone entries, and redo is unavailable |
| `Board.StrokeColor` | project/src/components/DrawingBoard.tsx:203 | the eraser strokes in #ffffff, every other tool in the selected colour |
| `Board.PutImageData` | project/src/components/DrawingBoard.tsx:85 | putImageData keeps the canvas size; a snapshot of the canvas's own size becomes the whole bitmap |
| `Board.Preview` | project/src/components/DrawingBoard.tsx:210-218 | a shape preview keeps the canvas size; it is the outline filled when fillShape is set (any shape), then stroked |
| `Board.PreviewsDoNotAccumulate` | project/src/components/DrawingBoard.tsx:210-218 | after restoring a canvas-sized scratch snapshot, a preview shows only the snapshot and the latest outline, whatever was previewed before |
| `Board.DrawingBoard.Snapshot` | project/src/components/DrawingBoard.tsx:72 | getImageData gives the current bitmap, and fails exactly when the canvas has no pixels |
| `Board.DrawingBoard.constructor` | project/src/components/DrawingBoard.tsx:13-19 | a mounted board has no history (cursor -1), no gesture, no scratch snapshot and no context yet |
| `Board.DrawingBoard.UpdateCanvasSize` | project/src/components/DrawingBoard.tsx:28-52 | the size becomes floor(size*ratio), the bitmap is cleared and the context reset; history is re-seeded with the blank canvas only if both sizes are positive, and is kept otherwise |
| `Board.DrawingBoard.SaveState` | project/src/components/DrawingBoard.tsx:69-77 | with a context and a non-empty canvas, the history becomes `Push` of the current bitmap; otherwise it is unchanged (no context, or getImageData throws); after a commit the bitmap is the entry under the cursor |
| `Board.DrawingBoard.Undo` | project/src/components/DrawingBoard.tsx:79-87 | the history becomes `Undo` of the old one; when undo was available the entry now under the cursor is put on the canvas; `Synced` is kept, so outside a gesture on a canvas with pixels the bitmap shown is `History.Current` |
| `Board.DrawingBoard.Redo` | project/src/components/DrawingBoard.tsx:89-97 | the history becomes `Redo` of the old one; when redo was available the entry now under the cursor is put on the canvas; `Synced` is kept, so outside a gesture the bitmap shown is `History.Current` |
| `Board.DrawingBoard.StartDrawing` | project/src/components/DrawingBoard.tsx:99-117 | a gesture starts at the mapped pointer; freehand tools begin a path there; other tools capture the scratch snapshot, which fails on an empty canvas |
| `Board.DrawingBoard.Draw` | project/src/components/DrawingBoard.tsx:194-220 | ignored outside a gesture; freehand extends and strokes the path (eraser in #ffffff); shapes restore the scratch snapshot and draw `Outline` from the start point to the same mapping of the pointer |
| `Board.DrawingBoard.StopDrawing` | project/src/components/DrawingBoard.tsx:222-236 | only during a gesture: ends it, closes the path, commits exactly one entry (`Push`) and drops the scratch snapshot; mouse leave runs the same handler |
| `Board.UndoThenRedoRestoresDisplay` | project/src/components/DrawingBoard.tsx:79-97 | on the board, an available undo followed by a redo restores the history and, outside a gesture on a canvas with pixels, the bitmap shown |
| `Board.DrawingBoard.ClearCanvas` | project/src/components/DrawingBoard.tsx:238-242 | the bitmap becomes blank at the canvas size, and the blank canvas is committed with `Push` |

## Left out

- Exporting the image (`saveCanvas`, DrawingBoard.tsx:244-255) is left out. It is a call into the `html-to-image` library and a DOM download link, with no logic of its own.
- The diagram editor (`project/src/components/MermaidEditor.tsx`) is left out. It passes text to the `mermaid` library and calls a remote chat API.
- `AI_stack/chat.py` is left out. It is an interactive console loop around a model call.
- The palette, colour picker and size slider of `project/src/App.tsx` are left out. Only their tool ids are kept, as `Geometry.Tool`. The props `tool`, `color`, `size` and `fillShape` are the `Board.ToolConfig` parameter of each handler.
- Pixel contents are not modelled. `Raster` records what was painted, not which pixels change. Stroking, filling and clearing are not rasterised.
- Floating-point rounding is not modelled. Coordinates are reals.
- Math.cos, Math.sin, Math.atan2 and Math.sqrt are parameters, not computed. So no statement is made about vertices lying on the circle, or about the arrowhead's exact angle.
- `context.scale(scale, scale)`, `lineCap` and `lineJoin` (DrawingBoard.tsx:41-43) are left out. Every path coordinate is taken as a backing-store pixel under the identity transform. On a display whose devicePixelRatio is not 1, the real canvas multiplies drawing coordinates a second time by that ratio. `clearRect` is affected the same way. The model does not show that effect.
- `canvas.style.width` and `canvas.style.height` (DrawingBoard.tsx:36-37) are not modelled. The bounding box that the pointer mapping uses is a parameter.
- The window resize listener, its `requestAnimationFrame` deferral and its removal on unmount (DrawingBoard.tsx:54-66) are left out. `UpdateCanvasSize` is one call with the container's size and the ratio.
- A missing canvas, context or container is not modelled. Those paths make the effect return early (DrawingBoard.tsx:22-30). `hasContext` only records whether the first resize has run.
- React's asynchronous state batching is not modelled. Each handler sees the state the previous handler left. The model also takes it that state updates made before a thrown exception are applied.
- `Mapping.ToCanvasPoint`: requires a bounding box with positive width and height. Pointer events only reach an element that has an area. A zero-sized box would make the division non-finite, and that case is not modelled.
- `Mapping.PhysicalSize`: requires a positive devicePixelRatio, which browsers always report.
- `Board.DrawingBoard.StopDrawing`: the two branches on the tool (DrawingBoard.tsx:227-232) both call `saveState`, so they are modelled as one call.
