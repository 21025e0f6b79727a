// The highlighter overlay's state and its event handlers. The page geometry
// (terms sections, checkboxes, vertical scroll) and the clock are passed in as
// parameters; the canvas offset is the position resizeCanvas last gave it.

module Pen {
  import opened Wrappers
  import opened Geometry
  import opened CanvasLayout
  import opened Strokes
  import opened Routing

  /** Bitmap size of a canvas element nobody has sized yet. */
  const DefaultWidth: int := 300
  const DefaultHeight: int := 150

  class Overlay {
    var lines: seq<Line>
    var isDrawing: bool
    var lastPoint: Option<Point>
    var touchCount: nat
    var pointerEventsAuto: bool  // the canvas' pointer-events style: "auto" or "none"
    var left: int
    var top: int
    var width: int
    var height: int

    /** Holds between any two steps, also inside startDrawing before it calls draw:
        drawing implies a last point, and every stored stroke is still visible. */
    ghost predicate Coherent()
      reads this
    {
      (isDrawing ==> lastPoint.Some?) &&
      forall i :: 0 <= i < |lines| ==> lines[i].opacity > 0.0
    }

    /** The object invariant: coherent, and every stroke holds at least two points. */
    ghost predicate Valid()
      reads this
    {
      Coherent() && forall i :: 0 <= i < |lines| ==> |lines[i].points| >= 2
    }

    function Canvas(): Box
      reads this
    {
      Box(left, top, width, height)
    }

    /** The effect of startDrawing on everything but the touch counter. */
    twostate predicate Started(e: Event, sections: seq<Rect>, checkboxes: seq<Rect>, scrollY: int, now: int)
      reads this
      requires HasPosition(e)
    {
      Canvas() == old(Canvas()) &&
      match Route(e, sections, checkboxes, old(left), old(top), scrollY)
      case MultiTouch =>
        lines == old(lines) && isDrawing == old(isDrawing) && lastPoint == old(lastPoint) &&
        pointerEventsAuto == old(pointerEventsAuto)
      case PassThrough =>
        lines == old(lines) && isDrawing == old(isDrawing) && lastPoint == old(lastPoint) &&
        !pointerEventsAuto
      case Capture(p) =>
        lines == old(lines) + [Line([p, p], InitialOpacity, now)] &&
        isDrawing && lastPoint == Some(p) && pointerEventsAuto
    }

    /** The effect of draw on everything but the touch counter. */
    twostate predicate Drawn(e: Event, scrollY: int)
      reads this
    {
      Canvas() == old(Canvas()) && isDrawing == old(isDrawing) &&
      pointerEventsAuto == old(pointerEventsAuto) &&
      if !old(isDrawing) then
        lines == old(lines) && lastPoint == old(lastPoint)
      else
        HasPosition(e) &&
        var p := GetPoint(e, left, top, scrollY);
        lines == AppendToLast(old(lines), p) && lastPoint == Some(p)
    }

    /** Page load: a fresh canvas at its static position with the default bitmap size, no
        strokes, pointer events on, and one layout pass. */
    constructor (sections: seq<Rect>, scrollY: int, staticLeft: int, staticTop: int)
      ensures Valid()
      ensures lines == [] && !isDrawing && lastPoint == None && touchCount == 0 && pointerEventsAuto
      ensures Canvas() == if |sections| == 0 then Box(staticLeft, staticTop, DefaultWidth, DefaultHeight)
                          else Layout(sections, scrollY)
    {
      lines := [];
      isDrawing := false;
      lastPoint := None;
      touchCount := 0;
      pointerEventsAuto := true;
      left, top, width, height := staticLeft, staticTop, DefaultWidth, DefaultHeight;
      new;
      ResizeCanvas(sections, scrollY);
    }

    /** resizeCanvas: with no sections nothing changes; otherwise the canvas takes the bounding
        box of the sections. The result depends on the inputs only, not on the previous canvas. */
    method ResizeCanvas(sections: seq<Rect>, scrollY: int)
      modifies this
      ensures |sections| == 0 ==> Canvas() == old(Canvas())
      ensures |sections| > 0 ==> Canvas() == Layout(sections, scrollY)
      ensures lines == old(lines) && isDrawing == old(isDrawing) && lastPoint == old(lastPoint)
      ensures touchCount == old(touchCount) && pointerEventsAuto == old(pointerEventsAuto)
    {
      if |sections| == 0 {
        return;
      }
      ghost var tops, bottoms := Tops(sections, scrollY), Bottoms(sections, scrollY);
      ghost var lefts, rights := Lefts(sections), Rights(sections);
      // minTop and minLeft start at +Infinity; the first section always replaces that,
      // so starting from the first section's values gives the same result
      var minTop := sections[0].top + scrollY;
      var maxBottom := 0;
      var minLeft := sections[0].left;
      var maxRight := 0;
      var i := 0;
      while i < |sections|
        invariant 0 <= i <= |sections|
        invariant i == 0 ==> minTop == tops[0] && minLeft == lefts[0]
        invariant i > 0 ==> minTop == MinOf(tops[..i]) && minLeft == MinOf(lefts[..i])
        invariant maxBottom == MaxFromZero(bottoms[..i]) && maxRight == MaxFromZero(rights[..i])
        invariant lines == old(lines) && isDrawing == old(isDrawing) && lastPoint == old(lastPoint)
        invariant touchCount == old(touchCount) && pointerEventsAuto == old(pointerEventsAuto)
      {
        var rect := sections[i];
        assert tops[i] == rect.top + scrollY && bottoms[i] == rect.bottom + scrollY;
        assert lefts[i] == rect.left && rights[i] == rect.right;
        if i > 0 { MinOfExtend(tops, i); MinOfExtend(lefts, i); }
        MaxFromZeroExtend(bottoms, i);
        MaxFromZeroExtend(rights, i);
        if rect.top + scrollY < minTop { minTop := rect.top + scrollY; }
        if rect.bottom + scrollY > maxBottom { maxBottom := rect.bottom + scrollY; }
        if rect.left < minLeft { minLeft := rect.left; }
        if rect.right > maxRight { maxRight := rect.right; }
        i := i + 1;
      }
      assert tops[..i] == tops && lefts[..i] == lefts;
      assert bottoms[..i] == bottoms && rights[..i] == rights;
      left := minLeft;
      top := minTop;
      width := maxRight - minLeft;
      height := maxBottom - minTop;
    }

    /** startDrawing (also the mousedown handler): route the event; on capture begin a stroke
        and call draw with the same event, so the new stroke holds the start point twice. */
    method StartDrawing(e: Event, sections: seq<Rect>, checkboxes: seq<Rect>, scrollY: int, now: int)
      requires Valid() && HasPosition(e)
      modifies this
      ensures Valid()
      ensures touchCount == old(touchCount)
      ensures Started(e, sections, checkboxes, scrollY, now)
    {
      if e.Touch? && |e.touches| > 1 {
        return;
      }
      var point := GetPoint(e, left, top, scrollY);
      var insideTerms := InsideTerms(sections, point, left, top, scrollY);
      if !insideTerms || IsOverCheckbox(checkboxes, point, left, top, scrollY) {
        pointerEventsAuto := false;
        return;
      } else {
        pointerEventsAuto := true;
      }
      isDrawing := true;
      lastPoint := Some(point);
      StartThenDraw(lines, point, now);
      lines := lines + [Line([point], InitialOpacity, now)];
      Draw(e, scrollY);
    }

    /** draw (also the mousemove handler): while drawing, the event's point goes onto the last
        stroke and becomes the last point; otherwise nothing happens. */
    method Draw(e: Event, scrollY: int)
      requires Coherent() && (isDrawing ==> HasPosition(e))
      modifies this
      ensures Coherent()
      ensures old(Valid()) ==> Valid()
      ensures touchCount == old(touchCount)
      ensures Drawn(e, scrollY)
    {
      if !isDrawing {
        return;
      }
      var point := GetPoint(e, left, top, scrollY);
      if |lines| > 0 && lastPoint.Some? {
        var lastLine := lines[|lines| - 1];
        lines := lines[..|lines| - 1] + [lastLine.(points := lastLine.points + [point])];
      }
      lastPoint := Some(point);
    }

    /** drawLines, as far as which strokes it paints: those with two points or more, in order. */
    method DrawLines() returns (painted: seq<Line>)
      ensures painted == Painted(lines)
    {
      painted := [];
      var i := 0;
      while i < |lines|
        invariant 0 <= i <= |lines|
        invariant painted == Painted(lines[..i])
      {
        var line := lines[i];
        assert lines[..i + 1] == lines[..i] + [line];
        if |line.points| >= 2 {
          painted := painted + [line];
        }
        i := i + 1;
      }
      assert lines[..i] == lines;
    }

    /** stopDrawing (also the mouseup and mouseleave handler). */
    method StopDrawing()
      requires Valid()
      modifies this
      ensures Valid()
      ensures !isDrawing
      ensures lines == old(lines) && lastPoint == old(lastPoint) && touchCount == old(touchCount)
      ensures pointerEventsAuto == old(pointerEventsAuto) && Canvas() == old(Canvas())
    {
      isDrawing := false;
    }

    /** The filter step of one animation frame: the strokes become one tick of the old ones. */
    method Prune(now: int)
      requires Valid()
      modifies this
      ensures Valid()
      ensures lines == Tick(old(lines), now)
      ensures (forall i :: 0 <= i < |old(lines)| ==> old(lines)[i].startTime <= now) ==>
        forall i :: 0 <= i < |lines| ==> lines[i].opacity <= InitialOpacity
      ensures isDrawing == old(isDrawing) && lastPoint == old(lastPoint) && touchCount == old(touchCount)
      ensures pointerEventsAuto == old(pointerEventsAuto) && Canvas() == old(Canvas())
    {
      TickKeepsStrokes(lines, now);
      TickBounds(lines, now);
      lines := AgeAndPrune(lines, now);
    }

    /** One animation frame: recompute every stroke's opacity for time now, keep the visible
        ones in order, and repaint. Every stroke kept is painted, and none that was dropped. */
    method Animate(now: int) returns (painted: seq<Line>)
      requires Valid()
      modifies this
      ensures Valid()
      ensures lines == Tick(old(lines), now)
      ensures painted == lines
      ensures (forall i :: 0 <= i < |old(lines)| ==> old(lines)[i].startTime <= now) ==>
        forall i :: 0 <= i < |lines| ==> lines[i].opacity <= InitialOpacity
      ensures isDrawing == old(isDrawing) && lastPoint == old(lastPoint) && touchCount == old(touchCount)
      ensures pointerEventsAuto == old(pointerEventsAuto) && Canvas() == old(Canvas())
    {
      Prune(now);
      PaintedAll(lines);
      painted := DrawLines();
    }

    /** The touchstart handler: record the number of touches; two or more turn pointer events
        off and leave the strokes alone, a single touch goes to startDrawing. */
    method TouchStart(touches: seq<Client>, sections: seq<Rect>, checkboxes: seq<Rect>, scrollY: int, now: int)
      requires Valid() && |touches| > 0
      modifies this
      ensures Valid()
      ensures touchCount == |touches|
      ensures |touches| > 1 ==>
        !pointerEventsAuto && lines == old(lines) && isDrawing == old(isDrawing) &&
        lastPoint == old(lastPoint) && Canvas() == old(Canvas())
      ensures |touches| == 1 ==> Started(Touch(touches), sections, checkboxes, scrollY, now)
    {
      touchCount := |touches|;
      if touchCount > 1 {
        pointerEventsAuto := false;
      } else {
        StartDrawing(Touch(touches), sections, checkboxes, scrollY, now);
      }
    }

    /** The touchmove handler: ignored entirely while more than one touch is down, draw otherwise. */
    method TouchMove(touches: seq<Client>, scrollY: int)
      requires Valid() && (touchCount <= 1 && isDrawing ==> |touches| > 0)
      modifies this
      ensures Valid()
      ensures old(touchCount) > 1 ==> unchanged(this)
      ensures old(touchCount) <= 1 ==> touchCount == old(touchCount) && Drawn(Touch(touches), scrollY)
    {
      if touchCount > 1 {
        return;
      }
      Draw(Touch(touches), scrollY);
    }

    /** The touchend and touchcancel handler: no touch is down any more, and drawing stops. */
    method TouchEnd()
      requires Valid()
      modifies this
      ensures Valid()
      ensures touchCount == 0 && !isDrawing
      ensures lines == old(lines) && lastPoint == old(lastPoint)
      ensures pointerEventsAuto == old(pointerEventsAuto) && Canvas() == old(Canvas())
    {
      touchCount := 0;
      StopDrawing();
    }
  }

  /** Two layout passes over unchanged geometry give the same canvas position and size. */
  method ResizeTwice(o: Overlay, sections: seq<Rect>, scrollY: int) returns (first: Box, second: Box)
    modifies o
    ensures first == second
  {
    o.ResizeCanvas(sections, scrollY);
    first := o.Canvas();
    o.ResizeCanvas(sections, scrollY);
    second := o.Canvas();
  }

  /** One section at top 100, left 0, bottom 300, right 500, no scroll: a mouse press at client
      (50, 150) lands at canvas point (50, 50) and starts a stroke holding that point twice. */
  method FirstStrokeScenario(now: int) returns (o: Overlay)
    ensures o.lines == [Line([Point(50, 50), Point(50, 50)], InitialOpacity, now)]
    ensures o.isDrawing && o.lastPoint == Some(Point(50, 50)) && o.pointerEventsAuto
  {
    var sections := [Rect(100, 300, 0, 500)];
    o := new Overlay(sections, 0, 8, 8);
    SingleSectionLayout();
    var e := Mouse(Client(50, 150));
    assert Contains(sections[0], Point(50, 50), 0, 100, 0);
    o.StartDrawing(e, sections, [], 0, now);
  }

  /** Once two touches are down, a touch move adds no point to any stroke, even while drawing. */
  method PinchScenario(o: Overlay, two: seq<Client>, moved: seq<Client>, sections: seq<Rect>,
                       checkboxes: seq<Rect>, scrollY: int, now: int)
    requires o.Valid() && |two| == 2
    modifies o
    ensures o.lines == old(o.lines) && o.lastPoint == old(o.lastPoint) && !o.pointerEventsAuto
  {
    o.TouchStart(two, sections, checkboxes, scrollY, now);
    o.TouchMove(moved, scrollY);
  }
}
