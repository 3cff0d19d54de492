/**
 * The editor's state and its event handlers. The source keeps this state in
 * module-level variables that the handlers reassign; here they are the fields
 * of one Editor object, and each handler is a method. The canvas size and the
 * slider values, which the source keeps in the DOM, are fields too.
 */
module App {
  import opened Wrappers
  import opened Transform
  import opened SceneModel

  /** Pixel dimensions of the loaded background photo. */
  datatype ImageSize = ImageSize(width: nat, height: nat)

  /** The values of the size, length and rotation sliders. */
  datatype Sliders = Sliders(size: int, length: int, rotation: int)

  /** The selection highlight: a rectangle in canvas space, rotated by `rotation` degrees. */
  datatype Box = Box(center: Point, width: real, height: real, rotation: int)

  /**
   * What selecting item j does to the sliders: size and rotation show the
   * item's values; the length slider shows its length only for a kind with
   * scalableLength and otherwise keeps its value (and is hidden).
   */
  function ShowSelected(sl: Sliders, j: Jewelry): (r: Sliders)
    ensures r.size == j.size && r.rotation == j.rotation
    ensures j.kind.scalableLength ==> r.length == j.length
    ensures !j.kind.scalableLength ==> r.length == sl.length
  {
    Sliders(j.size, if j.kind.scalableLength then j.length else sl.length, j.rotation)
  }

  class Editor {
    /** Canvas size in pixels. */
    const canvasWidth: nat
    const canvasHeight: nat

    var background: Option<ImageSize>
    var placed: seq<Jewelry>
    var selected: int
    /** The armed palette item, if any. */
    var palette: Option<JewelryType>
    var scale: real
    var offsetX: real
    var offsetY: real
    var isDraggingJewelry: bool
    var isPanning: bool
    var dragStart: Point
    var sliders: Sliders

    /**
     * The object invariant: the selection is -1 or a valid index, and the
     * rest of the state is well formed.
     */
    ghost predicate Valid()
      reads this
    {
      WellFormed() && SceneOf().Valid()
    }

    /**
     * Everything but the selection: the scale is positive
     * (canvasToImageCoords divides by it), the canvas and any loaded image
     * are non-empty, and the armed item comes from the catalog. Removing
     * items breaks only the selection part, until the handler deselects.
     */
    ghost predicate WellFormed()
      reads this
    {
      canvasWidth > 0 && canvasHeight > 0 && scale > 0.0 &&
      (background.Some? ==> background.value.width > 0 && background.value.height > 0) &&
      (palette.Some? ==> palette.value in Catalog())
    }

    function CurrentView(): View
      reads this
    {
      View(scale, offsetX, offsetY)
    }

    function SceneOf(): Scene
      reads this
    {
      Scene(placed, selected)
    }

    constructor (canvasWidth: nat, canvasHeight: nat, initialSliders: Sliders)
      requires canvasWidth > 0 && canvasHeight > 0
      ensures Valid()
      ensures this.canvasWidth == canvasWidth && this.canvasHeight == canvasHeight
      ensures background == None && placed == [] && selected == -1 && palette == None
      ensures CurrentView() == View(1.0, 0.0, 0.0)
      ensures !isDraggingJewelry && !isPanning && dragStart == Point(0.0, 0.0)
      ensures sliders == initialSliders
    {
      this.canvasWidth, this.canvasHeight := canvasWidth, canvasHeight;
      background, placed, selected, palette := None, [], -1, None;
      scale, offsetX, offsetY := 1.0, 0.0, 0.0;
      isDraggingJewelry, isPanning, dragStart := false, false, Point(0.0, 0.0);
      sliders := initialSliders;
    }

    /** A click on palette entry `index` arms that catalog item. */
    method ArmPaletteItem(index: nat)
      requires Valid() && index < |Catalog()|
      modifies this
      ensures Valid() && palette == Some(Catalog()[index])
      ensures background == old(background) && SceneOf() == old(SceneOf()) && CurrentView() == old(CurrentView())
      ensures isDraggingJewelry == old(isDraggingJewelry) && isPanning == old(isPanning)
      ensures dragStart == old(dragStart) && sliders == old(sliders)
    {
      palette := Some(Catalog()[index]);
    }

    /** A background photo of width x height pixels finished loading: install it and fit the view. */
    method LoadBackground(width: nat, height: nat)
      requires Valid() && width > 0 && height > 0
      modifies this
      ensures Valid() && background == Some(ImageSize(width, height))
      ensures CurrentView() == FittedView(canvasWidth as real, canvasHeight as real, width as real, height as real)
      ensures SceneOf() == old(SceneOf()) && palette == old(palette)
      ensures isDraggingJewelry == old(isDraggingJewelry) && isPanning == old(isPanning)
      ensures dragStart == old(dragStart) && sliders == old(sliders)
    {
      background := Some(ImageSize(width, height));
      ResetImageTransform();
    }

    /**
     * Pointer down at canvas point p: a hit selects the topmost item under p
     * and starts dragging it; otherwise an armed palette item is placed there
     * and disarmed; otherwise panning starts and the selection is cleared.
     */
    method HandleInteractionStart(p: Point)
      requires Valid()
      modifies this
      ensures Valid() && dragStart == p
      ensures background == old(background) && CurrentView() == old(CurrentView())
      ensures var q := ToImage(old(CurrentView()), p);
        var hit := Topmost(old(placed), q.x, q.y);
        if hit != -1 then
          placed == old(placed) && selected == hit && isDraggingJewelry &&
          isPanning == old(isPanning) && palette == old(palette) &&
          sliders == ShowSelected(old(sliders), old(placed)[hit])
        else if old(palette).Some? then
          SceneOf() == Place(old(SceneOf()), old(palette).value, q.x, q.y, old(sliders).size, old(sliders).length) &&
          palette == None && isDraggingJewelry == old(isDraggingJewelry) && isPanning == old(isPanning) &&
          sliders == ShowSelected(old(sliders), placed[selected])
        else
          placed == old(placed) && selected == -1 && isPanning &&
          isDraggingJewelry == old(isDraggingJewelry) && palette == None && sliders == old(sliders)
    {
      dragStart := p;
      var q := ToImage(CurrentView(), p);
      var hit := GetJewelryAtPosition(q.x, q.y);
      TopmostUnique(placed, q.x, q.y, hit);
      if hit != -1 {
        SelectJewelryOnCanvas(hit);
        isDraggingJewelry := true;
      } else if palette.Some? {
        PlaceNewJewelry(q.x, q.y);
        palette := None;
      } else {
        isPanning := true;
        DeselectJewelryOnCanvas();
      }
    }

    /**
     * Pointer moved to canvas point p. Only while dragging or panning: the
     * selected item moves by the pointer's delta divided by the scale, or else
     * (when panning) the offset moves by the delta; the anchor becomes p.
     */
    method HandleInteractionMove(p: Point)
      requires Valid()
      modifies this
      ensures Valid()
      ensures background == old(background) && palette == old(palette) && sliders == old(sliders)
      ensures isDraggingJewelry == old(isDraggingJewelry) && isPanning == old(isPanning)
      ensures selected == old(selected)
      ensures !old(isDraggingJewelry) && !old(isPanning) ==>
        dragStart == old(dragStart) && placed == old(placed) && CurrentView() == old(CurrentView())
      ensures old(isDraggingJewelry) || old(isPanning) ==> dragStart == p
      ensures var (dx, dy) := (p.x - old(dragStart).x, p.y - old(dragStart).y);
        if old(isDraggingJewelry) && old(selected) != -1 then
          SceneOf() == MoveSelected(old(SceneOf()), dx / old(scale), dy / old(scale)) &&
          CurrentView() == old(CurrentView())
        else if old(isPanning) then
          placed == old(placed) && CurrentView() == Panned(old(CurrentView()), dx, dy)
        else
          placed == old(placed) && CurrentView() == old(CurrentView())
    {
      if !isDraggingJewelry && !isPanning {
        return;
      }
      var dx := p.x - dragStart.x;
      var dy := p.y - dragStart.y;
      if isDraggingJewelry && selected != -1 {
        var j := placed[selected];
        placed := placed[selected := j.(x := j.x + dx / scale, y := j.y + dy / scale)];
      } else if isPanning {
        offsetX := offsetX + dx;
        offsetY := offsetY + dy;
      }
      dragStart := p;
    }

    /** Pointer up, leave or touch end: stop dragging and panning. */
    method HandleInteractionEnd()
      requires Valid()
      modifies this
      ensures Valid() && !isDraggingJewelry && !isPanning
      ensures background == old(background) && SceneOf() == old(SceneOf()) && CurrentView() == old(CurrentView())
      ensures palette == old(palette) && dragStart == old(dragStart) && sliders == old(sliders)
    {
      isDraggingJewelry := false;
      isPanning := false;
    }

    /**
     * A wheel event of deltaY at canvas point mouse: ignored without a
     * background; otherwise zoom to WheelScale about the mouse position.
     */
    method HandleWheel(deltaY: real, mouse: Point)
      requires Valid()
      modifies this
      ensures Valid()
      ensures background == old(background) && SceneOf() == old(SceneOf()) && palette == old(palette)
      ensures isDraggingJewelry == old(isDraggingJewelry) && isPanning == old(isPanning)
      ensures dragStart == old(dragStart) && sliders == old(sliders)
      ensures background.None? ==> CurrentView() == old(CurrentView())
      ensures background.Some? ==>
        CurrentView() == ZoomedView(old(CurrentView()), WheelScale(old(scale), deltaY), mouse) &&
        MinScale <= scale <= MaxScale
    {
      if background.None? {
        return;
      }
      var newScale := WheelScale(scale, deltaY);
      ZoomAtPoint(newScale, mouse);
    }

    /**
     * The zoom slider moved to `value`: ignored without a background;
     * otherwise zoom to that scale about the canvas centre. The value is not
     * clamped here; the slider's own range bounds it.
     */
    method HandleZoomSlider(value: real)
      requires Valid() && value > 0.0
      modifies this
      ensures Valid()
      ensures background == old(background) && SceneOf() == old(SceneOf()) && palette == old(palette)
      ensures isDraggingJewelry == old(isDraggingJewelry) && isPanning == old(isPanning)
      ensures dragStart == old(dragStart) && sliders == old(sliders)
      ensures background.None? ==> CurrentView() == old(CurrentView())
      ensures background.Some? ==>
        CurrentView() == ZoomedView(old(CurrentView()), value, Point(canvasWidth as real / 2.0, canvasHeight as real / 2.0))
    {
      if background.None? {
        return;
      }
      var center := Point(canvasWidth as real / 2.0, canvasHeight as real / 2.0);
      ZoomAtPoint(value, center);
    }

    /** The size slider moved to `value`: it becomes the selected item's size (its length is left alone). */
    method HandleSizeChange(value: int)
      requires Valid()
      modifies this
      ensures Valid() && SceneOf() == SetField(old(SceneOf()), Size, value)
      ensures sliders == old(sliders).(size := value)
      ensures background == old(background) && CurrentView() == old(CurrentView()) && palette == old(palette)
      ensures isDraggingJewelry == old(isDraggingJewelry) && isPanning == old(isPanning) && dragStart == old(dragStart)
    {
      sliders := sliders.(size := value);
      if selected != -1 {
        placed := placed[selected := placed[selected].(size := value)];
      }
    }

    /** The length slider moved to `value`: it becomes the selected item's length. */
    method HandleLengthChange(value: int)
      requires Valid()
      modifies this
      ensures Valid() && SceneOf() == SetField(old(SceneOf()), Length, value)
      ensures sliders == old(sliders).(length := value)
      ensures background == old(background) && CurrentView() == old(CurrentView()) && palette == old(palette)
      ensures isDraggingJewelry == old(isDraggingJewelry) && isPanning == old(isPanning) && dragStart == old(dragStart)
    {
      sliders := sliders.(length := value);
      if selected != -1 {
        placed := placed[selected := placed[selected].(length := value)];
      }
    }

    /** The rotation slider moved to `value`: it becomes the selected item's rotation. */
    method HandleRotationChange(value: int)
      requires Valid()
      modifies this
      ensures Valid() && SceneOf() == SetField(old(SceneOf()), Rotation, value)
      ensures sliders == old(sliders).(rotation := value)
      ensures background == old(background) && CurrentView() == old(CurrentView()) && palette == old(palette)
      ensures isDraggingJewelry == old(isDraggingJewelry) && isPanning == old(isPanning) && dragStart == old(dragStart)
    {
      sliders := sliders.(rotation := value);
      if selected != -1 {
        placed := placed[selected := placed[selected].(rotation := value)];
      }
    }

    /** Zoom to newScale keeping the image point under canvas point `point` where it is. */
    method ZoomAtPoint(newScale: real, point: Point)
      requires Valid() && newScale > 0.0
      modifies this
      ensures Valid() && CurrentView() == ZoomedView(old(CurrentView()), newScale, point)
      ensures scale == newScale && ToImage(CurrentView(), point) == ToImage(old(CurrentView()), point)
      ensures background == old(background) && SceneOf() == old(SceneOf()) && palette == old(palette)
      ensures isDraggingJewelry == old(isDraggingJewelry) && isPanning == old(isPanning)
      ensures dragStart == old(dragStart) && sliders == old(sliders)
    {
      var imagePoint := ToImage(CurrentView(), point);
      scale := newScale;
      offsetX := point.x - imagePoint.x * scale;
      offsetY := point.y - imagePoint.y * scale;
    }

    /** Fit the background inside the canvas and centre it; nothing to do without a background. */
    method ResetImageTransform()
      requires Valid()
      modifies this
      ensures Valid()
      ensures background.None? ==> CurrentView() == old(CurrentView())
      ensures background.Some? ==>
        CurrentView() == FittedView(canvasWidth as real, canvasHeight as real,
                                    background.value.width as real, background.value.height as real)
      ensures background == old(background) && SceneOf() == old(SceneOf()) && palette == old(palette)
      ensures isDraggingJewelry == old(isDraggingJewelry) && isPanning == old(isPanning)
      ensures dragStart == old(dragStart) && sliders == old(sliders)
    {
      if background.None? {
        return;
      }
      var image := background.value;
      FitShowsWholeImage(canvasWidth as real, canvasHeight as real, image.width as real, image.height as real);
      var hRatio := canvasWidth as real / image.width as real;
      var vRatio := canvasHeight as real / image.height as real;
      scale := Min(hRatio, vRatio);
      offsetX := (canvasWidth as real - image.width as real * scale) / 2.0;
      offsetY := (canvasHeight as real - image.height as real * scale) / 2.0;
    }

    /**
     * Place the armed palette item at image point (x, y) with the sliders'
     * size (and, for scalableLength kinds, length), and select it. As no
     * catalog kind has scalableLength, the new item's length is its size.
     */
    method PlaceNewJewelry(x: real, y: real)
      requires Valid() && palette.Some?
      modifies this
      ensures Valid()
      ensures SceneOf() == Place(old(SceneOf()), old(palette).value, x, y, old(sliders).size, old(sliders).length)
      ensures placed[selected].length == placed[selected].size
      ensures sliders == ShowSelected(old(sliders), placed[selected])
      ensures background == old(background) && CurrentView() == old(CurrentView()) && palette == old(palette)
      ensures isDraggingJewelry == old(isDraggingJewelry) && isPanning == old(isPanning) && dragStart == old(dragStart)
    {
      var kind := palette.value;
      var length := if kind.scalableLength then sliders.length else sliders.size;
      var jewelry := Jewelry(kind, x, y, sliders.size, length, 0);
      placed := placed + [jewelry];
      SelectJewelryOnCanvas(|placed| - 1);
    }

    /**
     * getJewelryAtPosition: scan from the top item down and return the index
     * of the first one that contains image point (x, y), or -1. This loop is
     * the handler; SceneModel.Topmost is the functional specification that the
     * other handlers' contracts use, and IsTopmostHit ties the two together.
     */
    method GetJewelryAtPosition(x: real, y: real) returns (index: int)
      ensures IsTopmostHit(placed, x, y, index)
    {
      var i := |placed| - 1;
      while i >= 0
        invariant -1 <= i < |placed|
        invariant forall k :: i < k < |placed| ==> !Contains(placed[k], x, y)
      {
        if Contains(placed[i], x, y) {
          return i;
        }
        i := i - 1;
      }
      return -1;
    }

    /** Select item `index` and show its values on the sliders. */
    method SelectJewelryOnCanvas(index: int)
      requires Valid() && 0 <= index < |placed|
      modifies this
      ensures Valid() && selected == index && placed == old(placed)
      ensures sliders == ShowSelected(old(sliders), placed[index])
      ensures background == old(background) && CurrentView() == old(CurrentView()) && palette == old(palette)
      ensures isDraggingJewelry == old(isDraggingJewelry) && isPanning == old(isPanning) && dragStart == old(dragStart)
    {
      selected := index;
      var jewelry := placed[index];
      sliders := ShowSelected(sliders, jewelry);
    }

    /** Clear the selection; callers may have left it dangling. */
    method DeselectJewelryOnCanvas()
      requires WellFormed()
      modifies this
      ensures Valid() && selected == -1 && placed == old(placed)
      ensures sliders == old(sliders)
      ensures background == old(background) && CurrentView() == old(CurrentView()) && palette == old(palette)
      ensures isDraggingJewelry == old(isDraggingJewelry) && isPanning == old(isPanning) && dragStart == old(dragStart)
    {
      selected := -1;
    }

    /** The delete button: remove the selected item, if any, and deselect. */
    method DeleteSelectedJewelry()
      requires Valid()
      modifies this
      ensures Valid() && SceneOf() == DeleteSelected(old(SceneOf()))
      ensures sliders == old(sliders)
      ensures background == old(background) && CurrentView() == old(CurrentView()) && palette == old(palette)
      ensures isDraggingJewelry == old(isDraggingJewelry) && isPanning == old(isPanning) && dragStart == old(dragStart)
    {
      if selected != -1 {
        placed := placed[..selected] + placed[selected + 1..];
        DeselectJewelryOnCanvas();
      }
    }

    /**
     * The download button: deselect, take the snapshot (its selection is
     * returned as `exportedSelection`), then restore the selection. Under the
     * invariant the restore guard always passes, so the selection comes back.
     */
    method DownloadDesign() returns (exportedSelection: int)
      requires Valid()
      modifies this
      ensures Valid() && exportedSelection == -1
      ensures SceneOf() == old(SceneOf())
      ensures sliders == if old(selected) != -1 then ShowSelected(old(sliders), placed[selected]) else old(sliders)
      ensures background == old(background) && CurrentView() == old(CurrentView()) && palette == old(palette)
      ensures isDraggingJewelry == old(isDraggingJewelry) && isPanning == old(isPanning) && dragStart == old(dragStart)
    {
      var tempSelection := selected;
      DeselectJewelryOnCanvas();
      exportedSelection := selected;
      if tempSelection != -1 && tempSelection < |placed| {
        SelectJewelryOnCanvas(tempSelection);
      }
    }

    /**
     * The clear button: drop the background and every item and deselect. The
     * background is gone before the view is reset, so the reset does nothing
     * and the scale and offset stay as they were.
     */
    method ClearAll()
      requires Valid()
      modifies this
      ensures Valid() && background == None && placed == [] && selected == -1
      ensures CurrentView() == old(CurrentView())
      ensures palette == old(palette) && sliders == old(sliders)
      ensures isDraggingJewelry == old(isDraggingJewelry) && isPanning == old(isPanning) && dragStart == old(dragStart)
    {
      background := None;
      placed := [];
      DeselectJewelryOnCanvas();
      ResetImageTransform();
    }

    /**
     * The selection highlight drawCanvas strokes: present exactly when an item
     * is selected, centred on the canvas position of that item (which the
     * invariant guarantees exists), scaled by the view and rotated with it.
     */
    function SelectionBox(): (b: Option<Box>)
      reads this
      requires Valid()
      ensures b.None? <==> selected == -1
      ensures b.Some? ==>
        ToImage(CurrentView(), b.value.center) == placed[selected].Position() &&
        b.value.height == placed[selected].size as real * scale &&
        b.value.rotation == placed[selected].rotation
      ensures b.Some? ==>
        b.value.width == (if placed[selected].kind.scalableLength then placed[selected].length
                          else placed[selected].size) as real * scale
      ensures b.Some? && !placed[selected].kind.scalableLength ==> b.value.width == b.value.height
    {
      if selected == -1 then None
      else
        var jewelry := placed[selected];
        var length := if jewelry.kind.scalableLength then jewelry.length else jewelry.size;
        ImageRoundTrip(CurrentView(), jewelry.Position());
        Some(Box(ToCanvas(CurrentView(), jewelry.Position()), length as real * scale, jewelry.size as real * scale, jewelry.rotation))
    }
  }

  /** An 800 x 600 canvas showing a 1600 x 1200 photo is fitted at scale 0.5 and offset (0, 0). */
  method FitSession()
  {
    var editor := new Editor(800, 600, Sliders(40, 40, 0));
    editor.LoadBackground(1600, 1200);
    assert editor.CurrentView() == View(0.5, 0.0, 0.0) by {
      assert 800.0 / 1600.0 == 0.5 && 600.0 / 1200.0 == 0.5;
    }
  }

  /**
   * Under the initial view (scale 1, offset 0) canvas and image points
   * coincide: an earring of size 40 placed at (100, 100) is found there and not at
   * (500, 500); deleting it leaves an empty scene.
   */
  method PlaceAndDeleteSession()
  {
    var editor := new Editor(800, 600, Sliders(40, 40, 0));
    editor.ArmPaletteItem(0);
    editor.HandleInteractionStart(Point(100.0, 100.0));
    assert editor.placed[0].Position() == Point(100.0, 100.0) && editor.placed[0].size == 40;
    var near := editor.GetJewelryAtPosition(100.0, 100.0);
    var far := editor.GetJewelryAtPosition(500.0, 500.0);
    assert near == 0 && far == -1;
    editor.DeleteSelectedJewelry();
    assert editor.placed == [] && editor.selected == -1;
  }
}
