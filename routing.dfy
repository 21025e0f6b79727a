// The decision startDrawing takes for a pointer-down or touch-start event:
// ignore a multi-touch gesture, let the page have the event, or capture it
// and begin a stroke at the translated point.

module Routing {
  import opened Geometry
  import opened CanvasLayout

  datatype Decision =
    | MultiTouch        // two or more touches: nothing happens
    | PassThrough       // outside every section or over a checkbox: pointer events off
    | Capture(p: Point) // inside a section and off every checkbox: a stroke begins at p

  /** The decision, for the canvas at the given offset and the page at the given scroll: a
      multi-touch exactly for a touch with more than one touch; otherwise the event's canvas
      point is captured when it lies in some section and in no checkbox, and passed through
      when it lies in no section or on a checkbox. */
  function Route(e: Event, sections: seq<Rect>, checkboxes: seq<Rect>,
                 offsetLeft: int, offsetTop: int, scrollY: int): (d: Decision)
    requires HasPosition(e)
    ensures d.MultiTouch? <==> e.Touch? && |e.touches| > 1
    ensures d.Capture? ==>
      d.p == GetPoint(e, offsetLeft, offsetTop, scrollY) &&
      AnyContains(sections, d.p, offsetLeft, offsetTop, scrollY) &&
      !AnyContains(checkboxes, d.p, offsetLeft, offsetTop, scrollY)
    ensures d.PassThrough? ==>
      var p := GetPoint(e, offsetLeft, offsetTop, scrollY);
      !AnyContains(sections, p, offsetLeft, offsetTop, scrollY) ||
      AnyContains(checkboxes, p, offsetLeft, offsetTop, scrollY)
  {
    if e.Touch? && |e.touches| > 1 then MultiTouch
    else
      var p := GetPoint(e, offsetLeft, offsetTop, scrollY);
      if !AnyContains(sections, p, offsetLeft, offsetTop, scrollY)
         || AnyContains(checkboxes, p, offsetLeft, offsetTop, scrollY)
      then PassThrough
      else Capture(p)
  }

  /** In client terms: an event is captured exactly when it is not a multi-touch, its position
      lies in some section and in no checkbox (checkboxes take precedence). The canvas offset and
      the scroll do not matter, and a captured point is the event's position on the canvas. */
  lemma RouteInClientFrame(e: Event, sections: seq<Rect>, checkboxes: seq<Rect>,
                           offsetLeft: int, offsetTop: int, scrollY: int)
    requires HasPosition(e)
    ensures var d := Route(e, sections, checkboxes, offsetLeft, offsetTop, scrollY);
      (d.MultiTouch? <==> e.Touch? && |e.touches| > 1) &&
      (d.Capture? <==>
        !(e.Touch? && |e.touches| > 1) &&
        AnyClientContains(sections, Position(e)) &&
        !AnyClientContains(checkboxes, Position(e))) &&
      (d.Capture? ==> ToClient(d.p, offsetLeft, offsetTop, scrollY) == Position(e))
  {
    var p := GetPoint(e, offsetLeft, offsetTop, scrollY);
    AnyContainsInClientFrame(sections, p, offsetLeft, offsetTop, scrollY);
    AnyContainsInClientFrame(checkboxes, p, offsetLeft, offsetTop, scrollY);
  }

  /** With the canvas laid out over the sections at the current scroll, a captured point lies on
      the canvas bitmap: 0 <= x <= width and 0 <= y <= height. */
  lemma CaptureLiesOnCanvas(e: Event, sections: seq<Rect>, checkboxes: seq<Rect>, scrollY: int)
    requires HasPosition(e) && |sections| > 0
    ensures var b := Layout(sections, scrollY);
      var d := Route(e, sections, checkboxes, b.left, b.top, scrollY);
      d.Capture? ==> 0 <= d.p.x <= b.width && 0 <= d.p.y <= b.height
  {
    var b := Layout(sections, scrollY);
    var d := Route(e, sections, checkboxes, b.left, b.top, scrollY);
    if d.Capture? {
      LayoutCovers(sections, scrollY);
      var i :| 0 <= i < |sections| && Contains(sections[i], d.p, b.left, b.top, scrollY);
      assert b.left <= sections[i].left && sections[i].right <= b.left + b.width;
      assert b.top <= sections[i].top + scrollY && sections[i].bottom + scrollY <= b.top + b.height;
    }
  }
}
