/**
 * The capture overlay: a window whose canvas tracks a left-button drag as an
 * axis-aligned rectangle and, on release, hands the rectangle to an opaque
 * capture step and hides itself.
 */
module Selection {
  import opened Wrappers

  /** A position on the canvas, in device-independent units. */
  datatype Point = Point(x: real, y: real)

  /** A placed rectangle: its top-left corner and its size. */
  datatype Region = Region(left: real, top: real, width: real, height: real)

  function Min(a: real, b: real): real {
    if a <= b then a else b
  }

  function Abs(a: real): real {
    if a < 0.0 then -a else a
  }

  /**
   * The rectangle spanned by a drag from `start` to `current`: its size is
   * never negative, and the two points are opposite corners of it, in
   * whichever of the four directions the drag went.
   */
  function DragRegion(start: Point, current: Point): (r: Region)
    ensures r.width >= 0.0 && r.height >= 0.0
    ensures {r.left, r.left + r.width} == {start.x, current.x}
    ensures {r.top, r.top + r.height} == {start.y, current.y}
  {
    Region(Min(start.x, current.x), Min(start.y, current.y), Abs(current.x - start.x), Abs(current.y - start.y))
  }

  /** The spanned rectangle does not depend on the direction of the drag. */
  lemma DragDirectionIrrelevant(a: Point, b: Point)
    ensures DragRegion(a, b) == DragRegion(b, a)
  {
  }

  /** The spanned rectangle is the smallest one that holds both points. */
  lemma DragRegionSmallest(start: Point, current: Point, box: Region)
    requires box.left <= start.x <= box.left + box.width && box.left <= current.x <= box.left + box.width
    requires box.top <= start.y <= box.top + box.height && box.top <= current.y <= box.top + box.height
    ensures box.left <= DragRegion(start, current).left
    ensures DragRegion(start, current).left + DragRegion(start, current).width <= box.left + box.width
    ensures box.top <= DragRegion(start, current).top
    ensures DragRegion(start, current).top + DragRegion(start, current).height <= box.top + box.height
  {
  }

  /**
   * The WPF Rectangle drawn on the canvas. Its position is set when it is
   * created; its Width and Height stay unset until the first mouse move.
   */
  class Rect {
    var left: real
    var top: real
    var width: Option<real>
    var height: Option<real>

    constructor (at: Point)
      ensures left == at.x && top == at.y && width == None && height == None
    {
      left, top := at.x, at.y;
      width, height := None, None;
    }

    /** The placed rectangle, once both sizes are set. */
    function Geometry(): Option<Region>
      reads this
    {
      if width.Some? && height.Some? then Some(Region(left, top, width.value, height.value)) else None
    }
  }

  /** The overlay window, with its drag state and the rectangles it captured. */
  class MainWindow {
    var isDragging: bool
    var startPoint: Point
    var rectangle: Rect?
    /** The canvas's child list. */
    var children: seq<Rect>
    var visible: bool
    var closed: bool
    /** Every rectangle whose capture step ran to its end, oldest first. */
    var captures: seq<Region>

    /** The canvas shows exactly the current rectangle, and a drag always has one. */
    ghost predicate Valid()
      reads this
    {
      && (rectangle == null ==> children == [])
      && (rectangle != null ==> children == [rectangle])
      && (isDragging ==> rectangle != null)
    }

    constructor ()
      ensures Valid()
      ensures !isDragging && rectangle == null && children == []
      ensures !visible && !closed && captures == []
    {
      isDragging := false;
      startPoint := Point(0.0, 0.0);
      rectangle := null;
      children := [];
      visible := false;
      closed := false;
      captures := [];
    }

    /** `Window.Show`; a closed window cannot be shown again. */
    method Show()
      requires !closed
      modifies this
      ensures visible && !closed
      ensures isDragging == old(isDragging) && startPoint == old(startPoint) && rectangle == old(rectangle)
      ensures children == old(children) && captures == old(captures)
    {
      visible := true;
    }

    /** `Window.Hide`. */
    method Hide()
      modifies this
      ensures !visible && closed == old(closed)
      ensures isDragging == old(isDragging) && startPoint == old(startPoint) && rectangle == old(rectangle)
      ensures children == old(children) && captures == old(captures)
    {
      visible := false;
    }

    /** `Window.Close`; closing a closed window leaves it closed. */
    method Close()
      modifies this
      ensures closed && !visible
      ensures isDragging == old(isDragging) && startPoint == old(startPoint) && rectangle == old(rectangle)
      ensures children == old(children) && captures == old(captures)
    {
      closed := true;
      visible := false;
    }

    /** `Canvas_MouseDown`: a left press starts a drag with a fresh rectangle at the press. */
    method MouseDown(leftPressed: bool, position: Point)
      requires Valid()
      modifies this
      ensures Valid()
      ensures !leftPressed ==> unchanged(this)
      ensures leftPressed ==>
                && isDragging && startPoint == position
                && rectangle != null && fresh(rectangle)
                && rectangle.left == position.x && rectangle.top == position.y
                && rectangle.Geometry() == None
                && children == [rectangle]
      ensures visible == old(visible) && closed == old(closed) && captures == old(captures)
    {
      if leftPressed {
        isDragging := true;
        startPoint := position;
        rectangle := new Rect(startPoint);
        children := [];
        children := children + [rectangle];
      }
    }

    /**
     * `Canvas_MouseMove`: while dragging, the rectangle becomes the one spanned
     * by the start point and the mouse pointer. Nothing else changes.
     */
    method MouseMove(position: Point)
      requires Valid()
      modifies rectangle
      ensures unchanged(this)
      ensures isDragging ==> rectangle.Geometry() == Some(DragRegion(startPoint, position))
      ensures !isDragging && rectangle != null ==> unchanged(rectangle)
    {
      if isDragging && rectangle != null {
        var currentPoint := position;
        var width := currentPoint.x - startPoint.x;
        var height := currentPoint.y - startPoint.y;
        if width < 0.0 {
          rectangle.left := currentPoint.x;
          width := -width;
        } else {
          rectangle.left := startPoint.x;
        }
        if height < 0.0 {
          rectangle.top := currentPoint.y;
          height := -height;
        } else {
          rectangle.top := startPoint.y;
        }
        rectangle.width := Some(width);
        rectangle.height := Some(height);
      }
    }

    /**
     * Whether the capture step can run to its end on the current rectangle:
     * there is none to capture, or its size is set and the capture itself
     * succeeds. An unset size (WPF's NaN) makes the pixel conversion throw.
     */
    predicate CaptureCompletes(captureSucceeds: bool)
      reads this, rectangle
    {
      rectangle == null || (rectangle.Geometry().Some? && captureSucceeds)
    }

    /** What a completed capture step records: the current rectangle's geometry, if any. */
    function Pending(): seq<Region>
      reads this, rectangle
    {
      if rectangle != null && rectangle.Geometry().Some? then [rectangle.Geometry().value] else []
    }

    /**
     * `Canvas_MouseUp`: on a left release the current rectangle, if any, is
     * captured; then the canvas is cleared, the drag ends and the window is
     * hidden. If the capture throws, the handler only hides the window.
     */
    method MouseUp(leftReleased: bool, captureSucceeds: bool)
      requires Valid()
      modifies this
      ensures Valid()
      ensures !leftReleased ==> unchanged(this)
      ensures leftReleased ==> !visible
      ensures leftReleased && old(CaptureCompletes(captureSucceeds)) ==>
                && !isDragging && rectangle == null && children == []
                && captures == old(captures) + old(Pending())
      ensures leftReleased && !old(CaptureCompletes(captureSucceeds)) ==>
                && isDragging == old(isDragging) && rectangle == old(rectangle) && children == old(children)
                && captures == old(captures)
      ensures startPoint == old(startPoint) && closed == old(closed)
    {
      if leftReleased {
        if rectangle != null {
          var g := rectangle.Geometry();
          if g.None? || !captureSucceeds {
            Hide();
            return;
          }
          captures := captures + [g.value];
        }
        children := [];
        isDragging := false;
        rectangle := null;
        Hide();
      }
    }
  }
}
