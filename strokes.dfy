// Strokes and their fade: the opacity formula, one animation tick (age every
// stroke, keep those still visible, in order) and the selection of strokes the
// repaint draws.

module Strokes {
  import opened Geometry

  /** Milliseconds a stroke takes to fade out completely. */
  const FadeOutDuration: int := 3000

  /** Opacity of a freshly started stroke. */
  const InitialOpacity: real := 0.7

  /** One highlighter stroke: its points in canvas coordinates, its current opacity and
      the time (in milliseconds) it was started. */
  datatype Line = Line(points: seq<Point>, opacity: real, startTime: int)

  /** The fade as line 158 of the source writes it: max(0, 0.7 - elapsed / 3000). The
      opacity reaches 0 after 2100 ms, not after the 3000 ms the fade-out duration names.
      This is the fade every tick of the model applies. */
  function FadeAsWritten(elapsed: int): (o: real)
    ensures 0.0 <= o
    ensures o > 0.0 <==> elapsed < 2100
    ensures o <= InitialOpacity <==> elapsed >= 0
    ensures elapsed == 0 ==> o == InitialOpacity
  {
    var v := InitialOpacity - elapsed as real / FadeOutDuration as real;
    if 0.0 >= v then 0.0 else v
  }

  /** The written formula loses 1/3000 of opacity per millisecond whatever the starting opacity,
      so a stroke is invisible at 2100 ms and at 1500 ms has 0.2 instead of half of 0.7. */
  lemma FadeAsWrittenEndsEarly()
    ensures FadeAsWritten(2100) == 0.0 && Fade(2100) > 0.0
    ensures FadeAsWritten(1500) == 0.2 && Fade(1500) == 0.35
  {
  }

  /** The fade as intended: 0.7 scaled down linearly to 0 over the fade-out duration,
      clamped at 0 afterwards. */
  function Fade(elapsed: int): (o: real)
    ensures 0.0 <= o
    ensures o > 0.0 <==> elapsed < FadeOutDuration
    ensures o <= InitialOpacity <==> elapsed >= 0
    ensures elapsed == 0 ==> o == InitialOpacity
  {
    var v := InitialOpacity * (1.0 - elapsed as real / FadeOutDuration as real);
    if 0.0 >= v then 0.0 else v
  }

  /** The intended fade never brightens: more elapsed time means no more opacity, and
      strictly less while the stroke is still visible. */
  lemma FadeMonotone(e1: int, e2: int)
    requires e1 <= e2
    ensures Fade(e2) <= Fade(e1)
    ensures e1 < e2 && Fade(e1) > 0.0 ==> Fade(e2) < Fade(e1)
  {
  }

  /** The written fade never brightens either: more elapsed time means no more opacity, and
      strictly less while the stroke is still visible. */
  lemma FadeAsWrittenMonotone(e1: int, e2: int)
    requires e1 <= e2
    ensures FadeAsWritten(e2) <= FadeAsWritten(e1)
    ensures e1 < e2 && FadeAsWritten(e1) > 0.0 ==> FadeAsWritten(e2) < FadeAsWritten(e1)
  {
  }

  /** The stroke with its opacity recomputed at time now. */
  function Aged(l: Line, now: int): Line
  {
    l.(opacity := FadeAsWritten(now - l.startTime))
  }

  /** A stroke is kept by a tick exactly when its recomputed opacity is positive. */
  predicate Survives(l: Line, now: int)
  {
    FadeAsWritten(now - l.startTime) > 0.0
  }

  /** What one tick makes of a single stroke: the aged stroke, or nothing. */
  function Step(l: Line, now: int): seq<Line>
  {
    if Survives(l, now) then [Aged(l, now)] else []
  }

  /** One tick of animate's filter: every stroke gets its opacity for time now, and the
      strokes whose opacity is still positive are kept in their original order. */
  function Tick(ls: seq<Line>, now: int): (r: seq<Line>)
    ensures |r| <= |ls|
  {
    if ls == [] then [] else Tick(ls[..|ls| - 1], now) + Step(ls[|ls| - 1], now)
  }

  /** What one tick keeps: no more strokes than before; every survivor is visible with the
      opacity of its fade; a stroke survives, aged, exactly when its fade is positive. */
  lemma {:induction false} TickSurvivors(ls: seq<Line>, now: int)
    ensures |Tick(ls, now)| <= |ls|
    ensures forall i :: 0 <= i < |Tick(ls, now)| ==>
      Tick(ls, now)[i].opacity > 0.0 && Tick(ls, now)[i].opacity == FadeAsWritten(now - Tick(ls, now)[i].startTime)
    ensures forall l :: l in ls && Survives(l, now) ==> Aged(l, now) in Tick(ls, now)
    ensures forall l' :: l' in Tick(ls, now) ==> exists l :: l in ls && Survives(l, now) && l' == Aged(l, now)
  {
    if ls != [] {
      var init, last := ls[..|ls| - 1], ls[|ls| - 1];
      assert ls == init + [last];
      TickSurvivors(init, now);
    }
  }

  /** One more stroke handed to the tick. */
  lemma TickExtend(ls: seq<Line>, i: nat, now: int)
    requires 0 <= i < |ls|
    ensures Tick(ls[..i + 1], now) == Tick(ls[..i], now) + Step(ls[i], now)
  {
    assert ls[..i + 1][..i] == ls[..i];
  }

  /** animate's filter, run over the strokes one at a time: set each stroke's opacity for time
      now and keep it when the opacity is positive. */
  method AgeAndPrune(ls: seq<Line>, now: int) returns (kept: seq<Line>)
    ensures kept == Tick(ls, now)
  {
    kept := [];
    var i := 0;
    while i < |ls|
      invariant 0 <= i <= |ls|
      invariant kept == Tick(ls[..i], now)
    {
      var line := ls[i];
      TickExtend(ls, i, now);
      var elapsed := now - line.startTime;
      line := line.(opacity := FadeAsWritten(elapsed));
      if line.opacity > 0.0 {
        kept := kept + [line];
      }
      i := i + 1;
    }
    assert ls[..i] == ls;
  }

  /** A tick never shortens a stroke and keeps only visible ones: if every stroke has two points
      or more, so does every survivor, and every survivor has positive opacity. */
  lemma TickKeepsStrokes(ls: seq<Line>, now: int)
    requires forall i :: 0 <= i < |ls| ==> |ls[i].points| >= 2
    ensures forall i :: 0 <= i < |Tick(ls, now)| ==>
      |Tick(ls, now)[i].points| >= 2 && Tick(ls, now)[i].opacity > 0.0
  {
    var r := Tick(ls, now);
    TickSurvivors(ls, now);
    forall i | 0 <= i < |r|
      ensures |r[i].points| >= 2 && r[i].opacity > 0.0
    {
      assert r[i] in r;
      var l :| l in ls && Survives(l, now) && r[i] == Aged(l, now);
    }
  }

  /** Order is preserved: ticking a concatenation ticks each part in place. */
  lemma {:induction false} TickAppend(a: seq<Line>, b: seq<Line>, now: int)
    ensures Tick(a + b, now) == Tick(a, now) + Tick(b, now)
    decreases |b|
  {
    if b == [] {
      assert a + b == a;
    } else {
      var init, last := b[..|b| - 1], b[|b| - 1];
      assert a + b == (a + init) + [last];
      assert (a + b)[..|a + b| - 1] == a + init;
      TickAppend(a, init, now);
    }
  }

  /** Whenever no stroke was started after now, every survivor's opacity lies in (0, 0.7]. */
  lemma TickBounds(ls: seq<Line>, now: int)
    ensures (forall i :: 0 <= i < |ls| ==> ls[i].startTime <= now) ==>
      forall i :: 0 <= i < |Tick(ls, now)| ==> 0.0 < Tick(ls, now)[i].opacity <= InitialOpacity
  {
    var r := Tick(ls, now);
    TickSurvivors(ls, now);
    if forall i :: 0 <= i < |ls| ==> ls[i].startTime <= now {
      forall i | 0 <= i < |r|
        ensures 0.0 < r[i].opacity <= InitialOpacity
      {
        assert r[i] in r;
        var l :| l in ls && Survives(l, now) && r[i] == Aged(l, now);
      }
    }
  }

  /** Ticking a single stroke twice is ticking it once at the later time. */
  lemma StepTwice(l: Line, t1: int, t2: int)
    requires t1 <= t2
    ensures Tick(Step(l, t1), t2) == Step(l, t2)
  {
    FadeAsWrittenMonotone(t1 - l.startTime, t2 - l.startTime);
    if Survives(l, t1) {
      var a := Aged(l, t1);
      assert Aged(a, t2) == Aged(l, t2);
      assert [a][..0] == [];
      assert Tick([a], t2) == Tick([], t2) + Step(a, t2);
    }
  }

  /** Two ticks in a row are one tick at the later time: the surviving collection depends only
      on the latest clock reading. In particular a second tick at the same time changes nothing. */
  lemma {:induction false} TickTwice(ls: seq<Line>, t1: int, t2: int)
    requires t1 <= t2
    ensures Tick(Tick(ls, t1), t2) == Tick(ls, t2)
    decreases |ls|
  {
    if ls != [] {
      var init, last := ls[..|ls| - 1], ls[|ls| - 1];
      calc {
        Tick(Tick(ls, t1), t2);
        Tick(Tick(init, t1) + Step(last, t1), t2);
        { TickAppend(Tick(init, t1), Step(last, t1), t2); }
        Tick(Tick(init, t1), t2) + Tick(Step(last, t1), t2);
        { TickTwice(init, t1, t2); StepTwice(last, t1, t2); }
        Tick(init, t2) + Step(last, t2);
        Tick(ls, t2);
      }
    }
  }

  /** A stroke started at t0 is at opacity 0.2 after 1500 ms and gone after 2100 ms. */
  lemma StrokeFadeScenario(points: seq<Point>, t0: int)
    ensures Tick([Line(points, InitialOpacity, t0)], t0 + 1500) == [Line(points, 0.2, t0)]
    ensures Tick([Line(points, InitialOpacity, t0)], t0 + 2100) == []
  {
    var l := Line(points, InitialOpacity, t0);
    assert [l][..0] == [];
  }

  /** The strokes drawLines paints, in order: those with at least two points. */
  function Painted(ls: seq<Line>): (r: seq<Line>)
    ensures |r| <= |ls|
    ensures forall i :: 0 <= i < |r| ==> |r[i].points| >= 2
  {
    if ls == [] then []
    else
      var last := ls[|ls| - 1];
      Painted(ls[..|ls| - 1]) + (if |last.points| >= 2 then [last] else [])
  }

  /** The repaint selects exactly the strokes with at least two points, and no more strokes
      than there are. */
  lemma {:induction false} PaintedSelects(ls: seq<Line>)
    ensures |Painted(ls)| <= |ls|
    ensures forall l :: l in Painted(ls) <==> l in ls && |l.points| >= 2
  {
    if ls != [] {
      var init := ls[..|ls| - 1];
      assert ls == init + [ls[|ls| - 1]];
      PaintedSelects(init);
    }
  }

  /** When every stroke has two points or more, the repaint draws all of them, in order. */
  lemma {:induction false} PaintedAll(ls: seq<Line>)
    requires forall i :: 0 <= i < |ls| ==> |ls[i].points| >= 2
    ensures Painted(ls) == ls
    decreases |ls|
  {
    if ls != [] {
      var init := ls[..|ls| - 1];
      PaintedAll(init);
      assert ls == init + [ls[|ls| - 1]];
    }
  }

  /** startDrawing pushes a one-point stroke and draw then appends the same point again. */
  lemma StartThenDraw(ls: seq<Line>, p: Point, now: int)
    ensures AppendToLast(ls + [Line([p], InitialOpacity, now)], p) == ls + [Line([p, p], InitialOpacity, now)]
  {
    var ls' := ls + [Line([p], InitialOpacity, now)];
    assert ls'[..|ls'| - 1] == ls;
    assert [p] + [p] == [p, p];
  }

  /** draw's update of the collection: the point goes onto the last stroke, nothing else changes;
      with no stroke there is nothing to extend. */
  function AppendToLast(ls: seq<Line>, p: Point): (r: seq<Line>)
    ensures |r| == |ls|
    ensures forall i :: 0 <= i < |ls| - 1 ==> r[i] == ls[i]
    ensures |ls| > 0 ==> r[|ls| - 1].points == ls[|ls| - 1].points + [p]
    ensures |ls| > 0 ==> r[|ls| - 1].opacity == ls[|ls| - 1].opacity
    ensures |ls| > 0 ==> r[|ls| - 1].startTime == ls[|ls| - 1].startTime
  {
    if ls == [] then []
    else
      var last := ls[|ls| - 1];
      ls[..|ls| - 1] + [last.(points := last.points + [p])]
  }
}
