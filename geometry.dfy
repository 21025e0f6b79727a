// Values shared by the highlighter overlay: the Option wrapper, rectangles as the
// page reports them, input events, and the translation of an event's client
// position into canvas-local coordinates together with the inclusive hit tests.

module Wrappers {
  datatype Option<T> = None | Some(value: T)
}

module Geometry {

  /** A rectangle as getBoundingClientRect reports it, in client (viewport) pixels. */
  datatype Rect = Rect(top: int, bottom: int, left: int, right: int)

  /** What the page always delivers: no negative width or height. */
  predicate WellFormed(r: Rect)
  {
    r.left <= r.right && r.top <= r.bottom
  }

  /** A position in client (viewport) coordinates, as carried by a mouse event or a touch. */
  datatype Client = Client(clientX: int, clientY: int)

  /** A position in the canvas' own coordinates. */
  datatype Point = Point(x: int, y: int)

  /** A mouse event carries one position; a touch event carries the list of active touches. */
  datatype Event = Mouse(at: Client) | Touch(touches: seq<Client>)

  /** The event has a position to read: a touch event needs a first touch. */
  predicate HasPosition(e: Event)
  {
    e.Mouse? || |e.touches| > 0
  }

  /** The client position an event is read at: the mouse position, or the first touch. */
  function Position(e: Event): Client
    requires HasPosition(e)
  {
    if e.Touch? then e.touches[0] else e.at
  }

  /** Canvas-local point back to client coordinates, given the canvas offset and the page scroll. */
  function ToClient(p: Point, offsetLeft: int, offsetTop: int, scrollY: int): Client
  {
    Client(p.x + offsetLeft, p.y + offsetTop - scrollY)
  }

  /** getPoint: the event's position relative to the canvas, with the vertical scroll added
      (for touch and mouse events alike). The result maps back to exactly the position read. */
  function GetPoint(e: Event, offsetLeft: int, offsetTop: int, scrollY: int): (p: Point)
    requires HasPosition(e)
    ensures ToClient(p, offsetLeft, offsetTop, scrollY) == Position(e)
    ensures forall q: Point :: ToClient(q, offsetLeft, offsetTop, scrollY) == Position(e) ==> q == p
  {
    var c := Position(e);
    Point(c.clientX - offsetLeft, c.clientY - offsetTop + scrollY)
  }

  /** The inclusive containment test of a canvas-local point against a client rectangle,
      with the rectangle shifted into the canvas frame, as the section and checkbox tests do. */
  predicate Contains(r: Rect, p: Point, offsetLeft: int, offsetTop: int, scrollY: int)
  {
    p.x >= r.left - offsetLeft &&
    p.x <= r.right - offsetLeft &&
    p.y >= r.top - offsetTop + scrollY &&
    p.y <= r.bottom - offsetTop + scrollY
  }

  /** Inclusive containment in the client frame, with no canvas involved. */
  predicate ClientContains(r: Rect, c: Client)
  {
    r.left <= c.clientX <= r.right && r.top <= c.clientY <= r.bottom
  }

  /** Some rectangle of the list contains the point. */
  predicate AnyContains(rs: seq<Rect>, p: Point, offsetLeft: int, offsetTop: int, scrollY: int)
  {
    exists i :: 0 <= i < |rs| && Contains(rs[i], p, offsetLeft, offsetTop, scrollY)
  }

  /** Some rectangle of the list contains the client position. */
  predicate AnyClientContains(rs: seq<Rect>, c: Client)
  {
    exists i :: 0 <= i < |rs| && ClientContains(rs[i], c)
  }

  /** The canvas-frame test agrees with the client-frame test: shifting the point and the
      rectangle by the same offsets and scroll changes nothing. */
  lemma ContainsInClientFrame(r: Rect, p: Point, offsetLeft: int, offsetTop: int, scrollY: int)
    ensures Contains(r, p, offsetLeft, offsetTop, scrollY)
        <==> ClientContains(r, ToClient(p, offsetLeft, offsetTop, scrollY))
  {
  }

  /** The same agreement for a whole list of rectangles. */
  lemma AnyContainsInClientFrame(rs: seq<Rect>, p: Point, offsetLeft: int, offsetTop: int, scrollY: int)
    ensures AnyContains(rs, p, offsetLeft, offsetTop, scrollY)
        <==> AnyClientContains(rs, ToClient(p, offsetLeft, offsetTop, scrollY))
  {
    var c := ToClient(p, offsetLeft, offsetTop, scrollY);
    forall i | 0 <= i < |rs|
      ensures Contains(rs[i], p, offsetLeft, offsetTop, scrollY) <==> ClientContains(rs[i], c)
    {
      ContainsInClientFrame(rs[i], p, offsetLeft, offsetTop, scrollY);
    }
  }

  /** isOverCheckbox: `some` over the checkbox rectangles, evaluated left to right. */
  function IsOverCheckbox(checkboxes: seq<Rect>, p: Point, offsetLeft: int, offsetTop: int, scrollY: int): (over: bool)
    ensures over <==> AnyContains(checkboxes, p, offsetLeft, offsetTop, scrollY)
  {
    if checkboxes == [] then false
    else if Contains(checkboxes[0], p, offsetLeft, offsetTop, scrollY) then true
    else
      var rest := IsOverCheckbox(checkboxes[1..], p, offsetLeft, offsetTop, scrollY);
      assert AnyContains(checkboxes[1..], p, offsetLeft, offsetTop, scrollY) <==> AnyContains(checkboxes, p, offsetLeft, offsetTop, scrollY) by {
        if AnyContains(checkboxes, p, offsetLeft, offsetTop, scrollY) {
          var i :| 0 <= i < |checkboxes| && Contains(checkboxes[i], p, offsetLeft, offsetTop, scrollY);
          assert checkboxes[1..][i - 1] == checkboxes[i];
        }
        if AnyContains(checkboxes[1..], p, offsetLeft, offsetTop, scrollY) {
          var i :| 0 <= i < |checkboxes[1..]| && Contains(checkboxes[1..][i], p, offsetLeft, offsetTop, scrollY);
          assert checkboxes[i + 1] == checkboxes[1..][i];
        }
      }
      rest
  }

  /** The section loop of startDrawing: visit every section and raise a flag on a hit. */
  method InsideTerms(sections: seq<Rect>, p: Point, offsetLeft: int, offsetTop: int, scrollY: int) returns (inside: bool)
    ensures inside <==> AnyContains(sections, p, offsetLeft, offsetTop, scrollY)
  {
    inside := false;
    var i := 0;
    while i < |sections|
      invariant 0 <= i <= |sections|
      invariant inside <==> exists j :: 0 <= j < i && Contains(sections[j], p, offsetLeft, offsetTop, scrollY)
    {
      if Contains(sections[i], p, offsetLeft, offsetTop, scrollY) {
        inside := true;
      }
      i := i + 1;
    }
  }
}
