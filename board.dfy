/**
 * The drawing board component (project/src/components/DrawingBoard.tsx): its
 * React state (history, historyIndex, isDrawing, startPos, tempImageData), the
 * canvas element's backing-store size and the 2D context it draws through.
 *
 * Each event handler is one method that runs to completion and sees the
 * state the previous handler left.  The bitmap is a `Raster` value: the blank
 * store a resize allocates, with the paint calls made on it since, so that a
 * getImageData snapshot is simply the current value and putImageData of a
 * snapshot of the canvas's own size makes the bitmap equal to that snapshot.
 * getImageData on a canvas with no pixels throws (an IndexSizeError); the
 * methods that call it return `thrown` and then stop, keeping the updates they
 * made before the call, as the handler does when the exception escapes.
 */
module Board {
  import opened Wrappers
  import opened Geometry
  import Mapping
  import History

  /** One painting call on the bitmap. */
  datatype Paint =
    | Stroke(path: seq<PathCmd>, color: string, lineWidth: real)
    | Fill(path: seq<PathCmd>, color: string)
    | PutImage(image: Raster)

  /** The canvas bitmap: the blank backing store and the painting calls made on it since. */
  datatype Raster = Blank(width: nat, height: nat) | Painted(under: Raster, paint: Paint)
  {
    function Width(): nat
    {
      match this
      case Blank(w, _) => w
      case Painted(u, _) => u.Width()
    }

    function Height(): nat
    {
      match this
      case Blank(_, h) => h
      case Painted(u, _) => u.Height()
    }
  }

  predicate SameSize(a: Raster, b: Raster)
  {
    a.Width() == b.Width() && a.Height() == b.Height()
  }

  /**
   * putImageData(image, 0, 0): the bitmap keeps its size; an image of that same size replaces
   * every pixel, any other image is drawn over the top-left part.
   */
  function PutImageData(target: Raster, image: Raster): (r: Raster)
    ensures SameSize(r, target)
    ensures SameSize(image, target) ==> r == image
  {
    if SameSize(image, target) then image else Painted(target, PutImage(image))
  }

  /** The board's props: the selected tool id, colour, line width and fill flag. */
  datatype ToolConfig = ToolConfig(tool: string, color: string, size: real, fillShape: bool)

  /** The eraser strokes in white; every other tool in the selected colour. */
  function StrokeColor(cfg: ToolConfig): string
  {
    if cfg.tool == "eraser" then "#ffffff" else cfg.color
  }

  /** The 2D context's default style, restored whenever the canvas is resized. */
  const DefaultStyle: string := "#000000"
  const DefaultLineWidth: real := 1.0

  /**
   * A shape preview drawn over `base`: the outline filled when fillShape is set (whatever the
   * shape, lines and arrows included), then stroked.
   */
  function Preview(base: Raster, outline: seq<PathCmd>, cfg: ToolConfig): (r: Raster)
    ensures SameSize(r, base)
  {
    var filled := if cfg.fillShape then Painted(base, Fill(outline, cfg.color)) else base;
    Painted(filled, Stroke(outline, StrokeColor(cfg), cfg.size))
  }

  /**
   * Previews do not accumulate: when the scratch snapshot has the canvas's size, a preview
   * drawn after restoring it shows the snapshot and the latest outline only, whatever was
   * previewed before.
   */
  lemma PreviewsDoNotAccumulate(canvas: Raster, scratch: Raster, earlier: seq<PathCmd>,
                                 latest: seq<PathCmd>, cfg: ToolConfig)
    requires SameSize(scratch, canvas)
    ensures var shown := Preview(PutImageData(canvas, scratch), earlier, cfg);
      Preview(PutImageData(shown, scratch), latest, cfg) == Preview(scratch, latest, cfg)
  {
  }

  class DrawingBoard {
    // React state
    var history: seq<Raster>
    var historyIndex: int
    var isDrawing: bool
    var startPos: Point
    var tempImageData: Option<Raster>

    // contextRef.current has been set by the first resize
    var hasContext: bool

    // the canvas backing store and the 2D context's state
    var width: nat
    var height: nat
    var raster: Raster
    var path: seq<PathCmd>
    var strokeStyle: string
    var fillStyle: string
    var lineWidth: real

    ghost predicate Valid()
      reads this
    {
      History.Valid(Hist()) && raster.Width() == width && raster.Height() == height
    }

    /**
     * Whenever the canvas has a context and pixels, the cursor points at an entry, every entry
     * has the canvas's size, and outside a gesture the bitmap shown is the entry under the
     * cursor. (A resize to zero size keeps the history but clears the bitmap, hence the guard.)
     */
    ghost predicate Synced()
      reads this
    {
      EntriesFit() && (hasContext && width > 0 && height > 0 && !isDrawing ==> raster == history[historyIndex])
    }

    ghost predicate EntriesFit()
      reads this
    {
      hasContext && width > 0 && height > 0 ==>
        0 <= historyIndex < |history| &&
        forall i :: 0 <= i < |history| ==> history[i].Width() == width && history[i].Height() == height
    }

    /** The undo history as a value. */
    function Hist(): History.Timeline<Raster>
      reads this
    {
      History.Timeline(history, historyIndex)
    }

    /** getImageData(0, 0, canvas.width, canvas.height): None when the canvas has no pixels. */
    function Snapshot(): (s: Option<Raster>)
      reads this
      ensures s.Some? <==> width > 0 && height > 0
      ensures s.Some? ==> s.value == raster
    {
      if width > 0 && height > 0 then Some(raster) else None
    }

    /** A mounted board before its first resize: a default 300 x 150 canvas and no history. */
    constructor ()
      ensures Valid() && Synced() && Hist() == History.Empty()
      ensures !isDrawing && startPos == Point(0.0, 0.0) && tempImageData == None && !hasContext
      ensures width == 300 && height == 150 && raster == Blank(300, 150)
    {
      history, historyIndex := [], -1;
      isDrawing, startPos, tempImageData := false, Point(0.0, 0.0), None;
      hasContext := false;
      width, height := 300, 150;
      raster := Blank(300, 150);
      path := [];
      strokeStyle, fillStyle, lineWidth := DefaultStyle, DefaultStyle, DefaultLineWidth;
    }

    /**
     * updateCanvasSize: the backing store becomes floor(size * devicePixelRatio) on each axis,
     * which clears it and resets the context's path and style; the history is re-seeded with the
     * blank canvas only when both dimensions are positive.
     */
    method UpdateCanvasSize(clientWidth: nat, clientHeight: nat, scale: real)
      requires Valid() && Synced() && scale > 0.0
      modifies this
      ensures Valid() && Synced()
      ensures width == Mapping.PhysicalSize(clientWidth, scale)
      ensures height == Mapping.PhysicalSize(clientHeight, scale)
      ensures raster == Blank(width, height) && path == [] && hasContext
      ensures strokeStyle == DefaultStyle && fillStyle == DefaultStyle && lineWidth == DefaultLineWidth
      ensures Hist() == if width > 0 && height > 0 then History.Reset(raster) else old(Hist())
      ensures isDrawing == old(isDrawing) && startPos == old(startPos)
      ensures tempImageData == old(tempImageData)
    {
      width := Mapping.PhysicalSize(clientWidth, scale);
      height := Mapping.PhysicalSize(clientHeight, scale);
      raster := Blank(width, height);
      path := [];
      strokeStyle, fillStyle, lineWidth := DefaultStyle, DefaultStyle, DefaultLineWidth;
      hasContext := true;
      if width > 0 && height > 0 {
        history := [raster];
        historyIndex := 0;
      }
    }

    /**
     * saveState: commit the current bitmap, dropping the entries after the cursor. Nothing
     * happens without a context; on a canvas with no pixels getImageData throws first.
     */
    method SaveState() returns (thrown: bool)
      requires Valid()
      modifies this`history, this`historyIndex
      ensures Valid()
      ensures thrown <==> hasContext && (width == 0 || height == 0)
      ensures Hist() == if hasContext && !thrown then History.Push(old(Hist()), raster) else old(Hist())
      ensures old(EntriesFit()) ==> EntriesFit()
      ensures hasContext && !thrown ==> raster == history[historyIndex]
    {
      thrown := false;
      if !hasContext {
        return;
      }
      var snapshot := Snapshot();
      if snapshot.None? {
        thrown := true;
        return;
      }
      var newHistory := history[..historyIndex + 1] + [snapshot.value];
      history := newHistory;
      historyIndex := |newHistory| - 1;
    }

    /** undo: step back when the cursor is above 0 and show that snapshot. */
    method Undo()
      requires Valid() && Synced()
      modifies this`historyIndex, this`raster
      ensures Valid() && Synced()
      ensures Hist() == History.Undo(old(Hist()))
      ensures raster == if History.CanUndo(old(Hist())) && hasContext
                        then PutImageData(old(raster), History.Current(Hist())) else old(raster)
      ensures History.CanUndo(old(Hist())) && hasContext && SameSize(History.Current(Hist()), old(raster))
              ==> raster == History.Current(Hist())
      ensures hasContext && width > 0 && height > 0 && !isDrawing ==> raster == History.Current(Hist())
    {
      if historyIndex > 0 {
        var newIndex := historyIndex - 1;
        historyIndex := newIndex;
        if !hasContext {
          return;
        }
        raster := PutImageData(raster, history[newIndex]);
      }
    }

    /** redo: step forward when the cursor is below the last entry and show that snapshot. */
    method Redo()
      requires Valid() && Synced()
      modifies this`historyIndex, this`raster
      ensures Valid() && Synced()
      ensures Hist() == History.Redo(old(Hist()))
      ensures raster == if History.CanRedo(old(Hist())) && hasContext
                        then PutImageData(old(raster), History.Current(Hist())) else old(raster)
      ensures History.CanRedo(old(Hist())) && hasContext && SameSize(History.Current(Hist()), old(raster))
              ==> raster == History.Current(Hist())
      ensures hasContext && width > 0 && height > 0 && !isDrawing ==> raster == History.Current(Hist())
    {
      if historyIndex < |history| - 1 {
        var newIndex := historyIndex + 1;
        historyIndex := newIndex;
        if !hasContext {
          return;
        }
        raster := PutImageData(raster, history[newIndex]);
      }
    }

    /**
     * startDrawing (mouse down): start a gesture at the mapped pointer. Freehand tools begin a
     * path there; every other tool keeps a scratch snapshot of the canvas for its previews.
     */
    method StartDrawing(cfg: ToolConfig, clientX: real, clientY: real, box: Mapping.BoundingBox)
      returns (thrown: bool)
      requires Valid() && Synced() && Mapping.Hittable(box)
      modifies this`isDrawing, this`startPos, this`path, this`tempImageData
      ensures Valid() && Synced()
      ensures !hasContext ==> !thrown && isDrawing == old(isDrawing) && startPos == old(startPos) &&
                              path == old(path) && tempImageData == old(tempImageData)
      ensures hasContext ==> isDrawing && startPos == Mapping.ToCanvasPoint(clientX, clientY, box, width, height)
      ensures hasContext && IsFreehand(cfg.tool) ==>
                !thrown && path == [MoveTo(startPos)] && tempImageData == old(tempImageData)
      ensures hasContext && !IsFreehand(cfg.tool) ==>
                path == old(path) && (thrown <==> width == 0 || height == 0) &&
                tempImageData == if thrown then old(tempImageData) else Some(raster)
    {
      thrown := false;
      if !hasContext {
        return;
      }
      var p := Mapping.ToCanvasPoint(clientX, clientY, box, width, height);
      isDrawing := true;
      startPos := p;
      if IsFreehand(cfg.tool) {
        path := [MoveTo(p)];
      } else {
        var snapshot := Snapshot();
        if snapshot.None? {
          thrown := true;
          return;
        }
        tempImageData := snapshot;
      }
    }

    /**
     * draw (mouse move): ignored unless a gesture is under way. A freehand tool extends its path
     * to the mapped pointer and strokes it; any other tool restores the scratch snapshot and
     * draws the outline from the start point to the pointer over it.
     */
    method Draw(cfg: ToolConfig, clientX: real, clientY: real, box: Mapping.BoundingBox, m: MathLib)
      requires Valid() && Synced() && Mapping.Hittable(box)
      modifies this`strokeStyle, this`fillStyle, this`lineWidth, this`path, this`raster
      ensures Valid() && Synced()
      ensures !(isDrawing && hasContext) ==>
                strokeStyle == old(strokeStyle) && fillStyle == old(fillStyle) &&
                lineWidth == old(lineWidth) && path == old(path) && raster == old(raster)
      ensures isDrawing && hasContext ==>
                strokeStyle == StrokeColor(cfg) && fillStyle == cfg.color && lineWidth == cfg.size
      ensures var p := Mapping.ToCanvasPoint(clientX, clientY, box, width, height);
              isDrawing && hasContext && IsFreehand(cfg.tool) ==>
                path == old(path) + [LineTo(p)] && raster == Painted(old(raster), Stroke(path, StrokeColor(cfg), cfg.size))
      ensures var p := Mapping.ToCanvasPoint(clientX, clientY, box, width, height);
              isDrawing && hasContext && !IsFreehand(cfg.tool) && tempImageData.Some? ==>
                path == Outline(m, cfg.tool, startPos, p) &&
                raster == Preview(PutImageData(old(raster), tempImageData.value), path, cfg)
      ensures isDrawing && hasContext && !IsFreehand(cfg.tool) && tempImageData.None? ==>
                path == old(path) && raster == old(raster)
    {
      if !isDrawing || !hasContext {
        return;
      }
      var p := Mapping.ToCanvasPoint(clientX, clientY, box, width, height);
      strokeStyle := StrokeColor(cfg);
      fillStyle := cfg.color;
      lineWidth := cfg.size;
      if IsFreehand(cfg.tool) {
        path := path + [LineTo(p)];
        raster := Painted(raster, Stroke(path, strokeStyle, lineWidth));
      } else if tempImageData.Some? {
        raster := PutImageData(raster, tempImageData.value);
        path := DrawShape(m, cfg.tool, startPos, p.x, p.y);
        if cfg.fillShape {
          raster := Painted(raster, Fill(path, fillStyle));
        }
        raster := Painted(raster, Stroke(path, strokeStyle, lineWidth));
      }
    }

    /**
     * stopDrawing (mouse up, and mouse leave, which is wired to the same handler): ends a gesture
     * under way, closes the current path and commits exactly one history entry, then drops the
     * scratch snapshot. Outside a gesture nothing happens.
     */
    method StopDrawing() returns (thrown: bool)
      requires Valid() && Synced()
      modifies this`isDrawing, this`path, this`history, this`historyIndex, this`tempImageData
      ensures Valid() && Synced()
      ensures !old(isDrawing) ==>
                !thrown && !isDrawing && path == old(path) && Hist() == old(Hist()) &&
                tempImageData == old(tempImageData)
      ensures old(isDrawing) ==> !isDrawing
      ensures old(isDrawing) && hasContext ==>
                path == old(path) + [ClosePath] && (thrown <==> width == 0 || height == 0) &&
                Hist() == if thrown then old(Hist()) else History.Push(old(Hist()), raster)
      ensures old(isDrawing) && !hasContext ==> !thrown && path == old(path) && Hist() == old(Hist())
      ensures old(isDrawing) ==> tempImageData == if thrown then old(tempImageData) else None
    {
      thrown := false;
      if isDrawing {
        isDrawing := false;
        if hasContext {
          path := path + [ClosePath];
          thrown := SaveState();
          if thrown {
            return;
          }
        }
        tempImageData := None;
      }
    }

    /** clearCanvas: clear the whole bitmap and commit the cleared canvas. */
    method ClearCanvas() returns (thrown: bool)
      requires Valid() && Synced()
      modifies this`raster, this`history, this`historyIndex
      ensures Valid() && Synced()
      ensures !hasContext ==> !thrown && raster == old(raster) && Hist() == old(Hist())
      ensures hasContext ==>
                raster == Blank(width, height) && (thrown <==> width == 0 || height == 0) &&
                Hist() == if thrown then old(Hist()) else History.Push(old(Hist()), raster)
    {
      thrown := false;
      if !hasContext {
        return;
      }
      raster := Blank(width, height);
      thrown := SaveState();
    }
  }

  /**
   * On the board, an available undo followed by a redo restores the cursor and, outside a
   * gesture on a canvas with pixels, the bitmap shown.
   */
  method UndoThenRedoRestoresDisplay(b: DrawingBoard)
    requires b.Valid() && b.Synced() && History.CanUndo(b.Hist())
    modifies b
    ensures b.Valid() && b.Synced()
    ensures b.Hist() == old(b.Hist())
    ensures b.hasContext && b.width > 0 && b.height > 0 && !b.isDrawing ==> b.raster == old(b.raster)
  {
    b.Undo();
    b.Redo();
  }
}
