/** The carousel of src/components/Slider.tsx: each slide element carries a
    signed logical slot (its data-x attribute); `indexArray` records every slot
    build hands out and `xScale` maps each slot to the slide shown there. While
    a finger or mouse drags, checkOrdering moves every slide one slot in the
    drag's direction, wrapping the extreme slot to the opposite extreme; on
    release the slots in `xScale` are written back to the slides. */
module SliderTs {
  import opened Carousel

  /** Index of the centre slide among n: n/2 for even n, (n-1)/2 for odd n. */
  function CenterIndex(n: nat): (c: nat)
    ensures c + c == n || c + c + 1 == n
    ensures c == n / 2
  {
    if n % 2 == 0 then n / 2 else (n - 1) / 2
  }

  function Sign(x: real): int
  {
    if x > 0.0 then 1 else if x < 0.0 then -1 else 0
  }

  /** checkOrdering's `rounded`: one step in the drag's direction once the drag
      covers 0.3 of a slot, none before. */
  function Step(xDist: real): (r: int)
    ensures r == 1 <==> xDist >= 0.3
    ensures r == -1 <==> xDist <= -0.3
    ensures r == 0 <==> -0.3 < xDist < 0.3
  {
    if AbsReal(xDist) >= 0.3 then Sign(xDist) else 0
  }

  /** Releasing never reorders. */
  lemma ReleaseDoesNotStep()
    ensures Step(XDist(None)) == 0
  {
  }

  /** The slot checkOrdering gives a slide read at `currentX` whose data-x is
      `original`, for a step `rounded`, when the recorded slots run from `lo` to
      `hi`. */
  function NewSlot(original: int, currentX: int, rounded: int, lo: int, hi: int): (r: int)
    ensures lo <= currentX <= hi ==> lo <= r <= hi
    ensures rounded == 0 ==> r == currentX
    ensures currentX == original && rounded > 0 ==>
      r == if currentX == hi then lo else currentX + 1
    ensures currentX == original && rounded < 0 ==>
      r == if currentX == lo then hi else currentX - 1
  {
    var totalX := currentX + rounded;
    if currentX == currentX + rounded then currentX
    else if totalX > original then (if currentX == hi then lo else currentX + 1)
    else if totalX < original then (if currentX == lo then hi else currentX - 1)
    else currentX
  }

  /** A drag step turns the whole layout: a slide at its data-x slot after net
      turn d moves to its slot after turn d + rounded. */
  lemma StepTurnsLayout(n: nat, i: int, d: int, rounded: int)
    requires 0 <= i < n && 0 <= d < n && -1 <= rounded <= 1
    ensures NewSlot(SlotOf(n, i, d), SlotOf(n, i, d), rounded, Lo(n), Hi(n))
            == SlotOf(n, i, Turn(n, d, rounded))
  {
  }

  /** Math.max(...s) for a non-empty set. */
  method SetMax(s: set<int>) returns (m: int)
    requires s != {}
    ensures m in s
    ensures forall y | y in s :: y <= m
  {
    HasElement(s);
    m :| m in s;
    var rest := s - {m};
    while rest != {}
      invariant rest <= s && m in s
      invariant forall y | y in s && y !in rest :: y <= m
      decreases rest
    {
      HasElement(rest);
      var y :| y in rest;
      if y > m {
        m := y;
      }
      rest := rest - {y};
    }
  }

  /** Math.min(...s) for a non-empty set. */
  method SetMin(s: set<int>) returns (m: int)
    requires s != {}
    ensures m in s
    ensures forall y | y in s :: m <= y
  {
    HasElement(s);
    m :| m in s;
    var rest := s - {m};
    while rest != {}
      invariant rest <= s && m in s
      invariant forall y | y in s && y !in rest :: m <= y
      decreases rest
    {
      HasElement(rest);
      var y :| y in rest;
      if y < m {
        m := y;
      }
      rest := rest - {y};
    }
  }

  /** How moveSlides leaves a slide whose new slot is `nx`: stacked by its
      distance from the centre, scaled and placed at `nx` plus the drag. */
  function Dragged(s: Slide, g: Layout, nx: int, xDist: real): Slide
  {
    Restyle(s.(zIndex := -Abs(nx)), g, nx as real + xDist)
  }

  /** When every slide is stacked by minus its distance from the centre, the
      centre slide is on top of all the others. */
  lemma OneOnTop(n: nat, t: int, slides: seq<Slide>)
    requires 0 <= t < n && |slides| == n
    requires forall j | 0 <= j < n :: slides[j].zIndex == -Abs(SlotOf(n, j, t))
    ensures exists top | 0 <= top < n ::
              slides[top].zIndex == 0 && forall i | 0 <= i < n && i != top :: slides[i].zIndex < 0
  {
    var top := SlideAt(n, 0, t);
    ExactlyOneCentred(n, 0, t);
    forall j | 0 <= j < n
      ensures SlotOf(n, j, t) == 0 <==> j == top
    {
      ExactlyOneCentred(n, j, t);
    }
    assert slides[top].zIndex == 0;
  }

  class Slider {
    const n: nat
    const layout: Layout
    var slides: seq<Slide>
    var indexArray: set<int>
    var xScale: map<int, int>
    // Whether build has laid the slides out, and the net turns of the layout
    // recorded in the slides' data-x (`settled`) and in `xScale` (`shown`).
    ghost var built: bool
    ghost var settled: int
    ghost var shown: int

    ghost predicate Valid()
      reads this
    {
      && |slides| == n
      && indexArray <= SlotRange(n)
      && (forall k | k in xScale :: IsSlot(n, k) && 0 <= xScale[k] < n)
      && (built ==>
            && n > 0 && 0 <= settled < n && 0 <= shown < n
            && indexArray == SlotRange(n)
            && (forall i | 0 <= i < n :: slides[i].x == SlotOf(n, i, settled))
            && (forall k | IsSlot(n, k) :: k in xScale && xScale[k] == SlideAt(n, k, shown)))
    }

    constructor (n: nat, layout: Layout)
      ensures Valid() && !built
      ensures this.n == n && this.layout == layout
      ensures slides == seq(n, _ => Unstyled)
      ensures indexArray == {} && xScale == map[]
    {
      this.n := n;
      this.layout := layout;
      slides := seq(n, _ => Unstyled);
      indexArray := {};
      xScale := map[];
      built := false;
    }

    /** build: slide i goes to slot i - CenterIndex(n), with its scale, left
        edge and z-index; every slot is added to indexArray and xScale maps it
        back to its slide. */
    method Build()
      requires Valid()
      modifies this
      ensures Valid()
      ensures n == 0 ==> unchanged(this)
      ensures n > 0 ==> built && settled == 0 && shown == 0
      ensures n > 0 ==> indexArray == SlotRange(n) && xScale.Keys == SlotRange(n)
      ensures n > 0 ==> forall k | k in xScale :: xScale[k] == k + CenterIndex(n)
      ensures n > 0 ==> forall i | 0 <= i < n :: slides[i] == Placed(layout, i - CenterIndex(n))
    {
      if n == 0 {
        return;
      }
      var centerIndex := CenterIndex(n);
      var i := 0;
      while i < n
        invariant 0 <= i <= n && |slides| == n
        invariant forall s :: s in indexArray <==> s in old(indexArray) || Lo(n) <= s < Lo(n) + i
        invariant forall j | 0 <= j < n :: slides[j] == if j < i then Placed(layout, j - centerIndex) else old(slides[j])
        invariant forall k :: k in xScale <==> k in old(xScale) || Lo(n) <= k < Lo(n) + i
        invariant forall k | k in xScale :: xScale[k] == if k < Lo(n) + i then k + centerIndex else old(xScale)[k]
      {
        var slideIndex := i - centerIndex;
        indexArray := indexArray + {slideIndex};
        var scale := CalcScale(slideIndex as real);
        var zIndex := -Abs(i - centerIndex);
        var leftPos := CalcPos(layout, slideIndex as real);
        xScale := xScale[slideIndex := i];
        slides := slides[i := Slide(slideIndex, scale, leftPos, zIndex, Opacity(scale))];
        i := i + 1;
      }
      built, settled, shown := true, 0, 0;
      forall s
        ensures s in indexArray <==> s in SlotRange(n)
        ensures s in xScale <==> s in SlotRange(n)
      {
        assert s in SlotRange(n) <==> IsSlot(n, s);
        assert IsSlot(n, s) <==> Lo(n) <= s < Lo(n) + n;
        assert s in old(indexArray) || s in old(xScale) ==> s in SlotRange(n);
      }
      assert forall k | IsSlot(n, k) :: SlideAt(n, k, 0) == k + centerIndex;
    }

    /** checkOrdering for slide i read at slot `currentX`: past the threshold
        the slide moves one slot in the drag's direction (the highest slot wraps
        to the lowest and back), xScale records it at its new slot, and its
        z-index becomes minus the distance of that slot from the centre. */
    method CheckOrdering(i: nat, currentX: int, xDist: real) returns (newX: int)
      requires n > 0 && i < |slides| && indexArray == SlotRange(n)
      modifies this`xScale, this`slides
      ensures newX == NewSlot(old(slides[i].x), currentX, Step(xDist), Lo(n), Hi(n))
      ensures xScale == if Step(xDist) != 0 then old(xScale)[newX := i] else old(xScale)
      ensures slides == old(slides)[i := old(slides[i]).(zIndex := -Abs(newX))]
    {
      assert IsSlot(n, Lo(n)) && IsSlot(n, Hi(n));
      assert Lo(n) in indexArray && Hi(n) in indexArray;
      var original := slides[i].x;
      var rounded := Step(xDist);
      newX := currentX;
      var totalX := currentX + rounded;
      if currentX != currentX + rounded {
        if totalX > original {
          var highest := SetMax(indexArray);
          if currentX == highest {
            newX := SetMin(indexArray);
          } else {
            newX := currentX + 1;
          }
        } else if totalX < original {
          var lowest := SetMin(indexArray);
          if currentX == lowest {
            newX := SetMax(indexArray);
          } else {
            newX := currentX - 1;
          }
        }
        xScale := xScale[newX := i];
      }
      slides := slides[i := slides[i].(zIndex := -Abs(newX))];
    }

    /** The release branch of moveSlides: every slot in xScale is written back
        as its slide's data-x, with z-index | |slot| - centerIndex |. */
    method SnapToKeys()
      requires Valid() && built
      modifies this`slides, this`settled
      ensures Valid() && settled == shown
      ensures forall i | 0 <= i < n :: slides[i] == old(slides[i]).(
        x := SlotOf(n, i, shown),
        zIndex := Abs(Abs(SlotOf(n, i, shown)) - CenterIndex(n)))
    {
      var centerIndex := CenterIndex(n);
      var keys := xScale.Keys;
      while keys != {}
        invariant keys <= xScale.Keys && |slides| == n
        invariant forall i | 0 <= i < n ::
                    slides[i] == if SlotOf(n, i, shown) in keys then old(slides[i])
                                 else old(slides[i]).(x := SlotOf(n, i, shown),
                                                      zIndex := Abs(Abs(SlotOf(n, i, shown)) - centerIndex))
        decreases keys
      {
        HasElement(keys);
        var x :| x in keys;
        var i := xScale[x];
        SlotOfSlideAt(n, x, shown);
        forall j | 0 <= j < n
          ensures SlotOf(n, j, shown) == x <==> j == i
        {
          SlideAtSlotOf(n, j, shown);
        }
        slides := slides[i := slides[i].(x := x, zIndex := Abs(Abs(x) - centerIndex))];
        keys := keys - {x};
      }
      settled := shown;
    }

    /** One pass of the loop in moveSlides, for slide i still at its data-x
        slot after the net turn `settled`: checkOrdering turns it by the drag's
        step and it is restyled at its new slot plus the drag. */
    method DragOne(i: nat, xDist: real)
      requires n > 0 && i < n && |slides| == n && indexArray == SlotRange(n)
      requires 0 <= settled < n && slides[i].x == SlotOf(n, i, settled)
      modifies this`slides, this`xScale
      ensures slides == old(slides)[i := Dragged(old(slides[i]), layout, SlotOf(n, i, Turn(n, settled, Step(xDist))), xDist)]
      ensures xScale == if Step(xDist) != 0 then old(xScale)[SlotOf(n, i, Turn(n, settled, Step(xDist))) := i] else old(xScale)
    {
      var currentX := slides[i].x;
      var x := CheckOrdering(i, currentX, xDist);
      StepTurnsLayout(n, i, settled, Step(xDist));
      var scale := CalcScale(x as real + xDist);
      var leftPos := CalcPos(layout, x as real + xDist);
      slides := slides[i := slides[i].(scale := scale, left := leftPos, opacity := Opacity(scale))];
    }

    /** The loop of moveSlides over all slides for a drag of `xDist` slots:
        every slide is turned by the drag's step, from the slot in its data-x,
        and xScale ends up holding that turned layout. */
    method DragAll(xDist: real)
      requires Valid() && built
      modifies this`slides, this`xScale, this`shown
      ensures Valid()
      ensures shown == if Step(xDist) != 0 then Turn(n, settled, Step(xDist)) else old(shown)
      ensures forall i | 0 <= i < n ::
                slides[i] == Dragged(old(slides[i]), layout, SlotOf(n, i, Turn(n, settled, Step(xDist))), xDist)
    {
      ghost var rounded := Step(xDist);
      ghost var t := Turn(n, settled, rounded);
      var i := 0;
      while i < n
        invariant 0 <= i <= n && |slides| == n && shown == old(shown)
        invariant forall j | 0 <= j < n ::
                    slides[j] == if j < i then Dragged(old(slides[j]), layout, SlotOf(n, j, t), xDist) else old(slides[j])
        invariant forall k | IsSlot(n, k) ::
                    k in xScale && xScale[k] == if rounded != 0 && SlideAt(n, k, t) < i then SlideAt(n, k, t) else old(xScale)[k]
        invariant forall k | k in xScale :: IsSlot(n, k)
      {
        DragOne(i, xDist);
        forall k | IsSlot(n, k)
          ensures SlideAt(n, k, t) == i <==> k == SlotOf(n, i, t)
        {
          SlotOfSlideAt(n, k, t);
          SlideAtSlotOf(n, i, t);
        }
        i := i + 1;
      }
      forall k | IsSlot(n, k)
        ensures xScale[k] == SlideAt(n, k, if rounded != 0 then t else shown)
      {
        SlotOfSlideAt(n, k, t);
      }
      assert forall j | 0 <= j < n :: slides[j].x == old(slides[j]).x;
      if rounded != 0 {
        shown := t;
      }
    }

    /** moveSlides with `data` the gesture's displacement in pixels, or None
        when the gesture ends. Afterwards each slide has kept its data-x (or,
        on release, taken the slot xScale gave it), has been turned by the
        drag's step, and is styled at its new slot plus the drag; exactly one
        slide is at the centre on top of all the others. */
    method MoveSlides(data: Option<real>)
      requires Valid() && (n > 0 ==> built)
      modifies this`slides, this`xScale, this`settled, this`shown
      ensures Valid()
      ensures n == 0 ==> unchanged(this)
      ensures n > 0 ==> settled == if data.None? then old(shown) else old(settled)
      ensures n > 0 ==>
                shown == if Step(XDist(data)) != 0 then Turn(n, settled, Step(XDist(data))) else old(shown)
      ensures n > 0 ==>
                forall i | 0 <= i < n ::
                  slides[i] == Dragged(old(slides[i]).(x := SlotOf(n, i, settled)), layout,
                                       SlotOf(n, i, Turn(n, settled, Step(XDist(data)))), XDist(data))
      ensures n > 0 ==>
                exists top | 0 <= top < n ::
                  slides[top].zIndex == 0 && forall i | 0 <= i < n && i != top :: slides[i].zIndex < 0
    {
      if n == 0 {
        return;
      }
      var xDist := XDist(data);
      if data.None? {
        SnapToKeys();
      }
      DragAll(xDist);
      OneOnTop(n, Turn(n, settled, Step(xDist)), slides);
    }
  }
}
