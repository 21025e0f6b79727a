// The bounding box that resizeCanvas gives the canvas: the smallest left and top
// over all terms sections, and the largest right and bottom, where the two
// maxima start from 0 rather than from minus infinity. Vertical values are
// page coordinates (client top/bottom plus the vertical scroll); horizontal
// values are client coordinates.

module CanvasLayout {
  import opened Geometry

  /** Canvas position (style left/top) and bitmap size (width/height). */
  datatype Box = Box(left: int, top: int, width: int, height: int)

  function Min(a: int, b: int): int { if a <= b then a else b }
  function Max(a: int, b: int): int { if a >= b then a else b }

  /** Smallest element of a non-empty sequence, folded left to right as the loop does. */
  function MinOf(s: seq<int>): int
    requires |s| > 0
  {
    if |s| == 1 then s[0] else Min(MinOf(s[..|s| - 1]), s[|s| - 1])
  }

  /** Largest element of a sequence, folded left to right from an accumulator that starts at 0. */
  function MaxFromZero(s: seq<int>): int
  {
    if |s| == 0 then 0 else Max(MaxFromZero(s[..|s| - 1]), s[|s| - 1])
  }

  /** MinOf is the minimum: below every element and equal to one of them. */
  lemma {:induction false} MinOfIsMinimum(s: seq<int>)
    requires |s| > 0
    ensures forall i :: 0 <= i < |s| ==> MinOf(s) <= s[i]
    ensures exists i :: 0 <= i < |s| && MinOf(s) == s[i]
  {
    if |s| > 1 {
      var init := s[..|s| - 1];
      MinOfIsMinimum(init);
      assert forall i :: 0 <= i < |init| ==> init[i] == s[i];
      var k :| 0 <= k < |init| && MinOf(init) == init[k];
      var w := if MinOf(s) == s[|s| - 1] then |s| - 1 else k;
      assert 0 <= w < |s| && MinOf(s) == s[w];
    } else {
      assert MinOf(s) == s[0];
    }
  }

  /** MaxFromZero is the maximum of 0 and the elements: at least 0 and every element, and
      equal to 0 or to one of them. */
  lemma {:induction false} MaxFromZeroIsMaximum(s: seq<int>)
    ensures 0 <= MaxFromZero(s)
    ensures forall i :: 0 <= i < |s| ==> s[i] <= MaxFromZero(s)
    ensures MaxFromZero(s) == 0 || exists i :: 0 <= i < |s| && MaxFromZero(s) == s[i]
  {
    if |s| > 0 {
      var init := s[..|s| - 1];
      MaxFromZeroIsMaximum(init);
      assert forall i :: 0 <= i < |init| ==> init[i] == s[i];
      if MaxFromZero(init) != 0 && MaxFromZero(s) != s[|s| - 1] {
        var k :| 0 <= k < |init| && MaxFromZero(init) == init[k];
        assert MaxFromZero(s) == s[k];
      }
    }
  }

  /** One more element folded into the minimum. */
  lemma MinOfExtend(s: seq<int>, i: nat)
    requires 0 < i < |s|
    ensures MinOf(s[..i + 1]) == Min(MinOf(s[..i]), s[i])
  {
    assert s[..i + 1][..i] == s[..i];
  }

  /** One more element folded into the maximum. */
  lemma MaxFromZeroExtend(s: seq<int>, i: nat)
    requires 0 <= i < |s|
    ensures MaxFromZero(s[..i + 1]) == Max(MaxFromZero(s[..i]), s[i])
  {
    assert s[..i + 1][..i] == s[..i];
  }

  function Lefts(rs: seq<Rect>): (s: seq<int>)
    ensures |s| == |rs| && forall i :: 0 <= i < |rs| ==> s[i] == rs[i].left
  {
    seq(|rs|, i requires 0 <= i < |rs| => rs[i].left)
  }

  function Rights(rs: seq<Rect>): (s: seq<int>)
    ensures |s| == |rs| && forall i :: 0 <= i < |rs| ==> s[i] == rs[i].right
  {
    seq(|rs|, i requires 0 <= i < |rs| => rs[i].right)
  }

  /** Section tops in page coordinates. */
  function Tops(rs: seq<Rect>, scrollY: int): (s: seq<int>)
    ensures |s| == |rs| && forall i :: 0 <= i < |rs| ==> s[i] == rs[i].top + scrollY
  {
    seq(|rs|, i requires 0 <= i < |rs| => rs[i].top + scrollY)
  }

  /** Section bottoms in page coordinates. */
  function Bottoms(rs: seq<Rect>, scrollY: int): (s: seq<int>)
    ensures |s| == |rs| && forall i :: 0 <= i < |rs| ==> s[i] == rs[i].bottom + scrollY
  {
    seq(|rs|, i requires 0 <= i < |rs| => rs[i].bottom + scrollY)
  }

  /** The canvas geometry resizeCanvas computes from a non-empty list of sections. Its left
      and top edges are at or before every section's; because the maxima start at 0, its right
      and bottom edges are never before the origin. */
  function Layout(sections: seq<Rect>, scrollY: int): (b: Box)
    requires |sections| > 0
    ensures forall i :: 0 <= i < |sections| ==> b.left <= sections[i].left && b.top <= sections[i].top + scrollY
    ensures 0 <= b.left + b.width && 0 <= b.top + b.height
  {
    MinOfIsMinimum(Lefts(sections));
    MinOfIsMinimum(Tops(sections, scrollY));
    MaxFromZeroIsMaximum(Rights(sections));
    MaxFromZeroIsMaximum(Bottoms(sections, scrollY));
    var minLeft := MinOf(Lefts(sections));
    var minTop := MinOf(Tops(sections, scrollY));
    Box(minLeft, minTop,
        MaxFromZero(Rights(sections)) - minLeft,
        MaxFromZero(Bottoms(sections, scrollY)) - minTop)
  }

  /** The canvas covers every section (in page coordinates vertically), its left and top edges
      touch some section, and its right and bottom edges touch some section or sit at 0. */
  lemma LayoutCovers(sections: seq<Rect>, scrollY: int)
    requires |sections| > 0
    ensures var b := Layout(sections, scrollY);
      forall i :: 0 <= i < |sections| ==>
        b.left <= sections[i].left && sections[i].right <= b.left + b.width &&
        b.top <= sections[i].top + scrollY && sections[i].bottom + scrollY <= b.top + b.height
    ensures var b := Layout(sections, scrollY);
      (exists i :: 0 <= i < |sections| && b.left == sections[i].left) &&
      (exists i :: 0 <= i < |sections| && b.top == sections[i].top + scrollY)
    ensures var b := Layout(sections, scrollY);
      (b.left + b.width == 0 || exists i :: 0 <= i < |sections| && b.left + b.width == sections[i].right) &&
      (b.top + b.height == 0 || exists i :: 0 <= i < |sections| && b.top + b.height == sections[i].bottom + scrollY)
  {
    MinOfIsMinimum(Lefts(sections));
    MinOfIsMinimum(Tops(sections, scrollY));
    MaxFromZeroIsMaximum(Rights(sections));
    MaxFromZeroIsMaximum(Bottoms(sections, scrollY));
  }

  /** With rectangles of non-negative size, the canvas never gets a negative width or height. */
  lemma LayoutNonNegative(sections: seq<Rect>, scrollY: int)
    requires |sections| > 0
    requires forall i :: 0 <= i < |sections| ==> WellFormed(sections[i])
    ensures Layout(sections, scrollY).width >= 0 && Layout(sections, scrollY).height >= 0
  {
    LayoutCovers(sections, scrollY);
  }

  /** One section at top 100, left 0, bottom 300, right 500 with no scroll: canvas at (0, 100), 500 by 200. */
  lemma SingleSectionLayout()
    ensures Layout([Rect(100, 300, 0, 500)], 0) == Box(0, 100, 500, 200)
  {
  }

  /** The maxima start at 0: a section lying left of and above the origin still stretches the
      canvas to the origin (50 wide and 300 high rather than 40 by 200). */
  lemma MaximaStartAtZero()
    ensures Layout([Rect(-300, -100, -50, -10)], 0) == Box(-50, -300, 50, 300)
  {
  }
}
