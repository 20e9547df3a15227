/** Definitions shared by both drag carousels (Slider.tsx and Slider.jsx): the
    gesture displacement, the scale and position formulas, the per-slide style
    record, and the cyclic slot layout that lets a fixed pool of slides appear
    to loop forever. */
module Carousel {

  datatype Option<T> = None | Some(value: T)

  function Abs(x: int): (r: int)
    ensures r >= 0 && (r == x || r == -x)
  {
    if x < 0 then -x else x
  }

  function AbsReal(x: real): (r: real)
    ensures r >= 0.0 && (r == x || r == -x)
  {
    if x < 0.0 then -x else x
  }

  /** A non-empty set has an element (the witness that picking one needs). */
  lemma HasElement(s: set<int>)
    requires s != {}
    ensures exists y :: y in s
  {
    if forall y :: y !in s {
      assert false;
    }
  }

  // ---------------------------------------------------------------------------
  // Gesture tracker

  /** A press or move event, reduced to the horizontal coordinate of the mouse or finger:
      a mouse event's clientX, or the clientX of a touch event's first touch. */
  datatype DragEvent = Mouse(clientX: real) | Touch(firstTouchX: real)

  function ClientX(e: DragEvent): real
  {
    match e
    case Mouse(x) => x
    case Touch(x) => x
  }

  /** The handler that startDrag builds from the press event `start`, applied to
      one later event; `None` stands for the `null` that ends the gesture, and
      the handler then hands `null` to its callback. */
  function Displacement(start: DragEvent, move: Option<DragEvent>): (d: Option<real>)
    ensures d.None? <==> move.None?
    ensures move.Some? ==> ClientX(start) + d.value == ClientX(move.value)
  {
    match move
    case None => None
    case Some(e) => Some(ClientX(e) - ClientX(start))
  }

  lemma NoMovementNoDisplacement(start: DragEvent, move: DragEvent)
    requires ClientX(move) == ClientX(start)
    ensures Displacement(start, Some(move)) == Some(0.0)
  {
  }

  /** The drag in slot widths: 250 pixels make one slot; the end of the
      gesture counts as 0. */
  function XDist(data: Option<real>): (r: real)
    ensures data.Some? ==> r * 250.0 == data.value
    ensures data.None? ==> r == 0.0
  {
    match data
    case Some(px) => px / 250.0
    case None => 0.0
  }

  // ---------------------------------------------------------------------------
  // Scale, opacity and horizontal position

  /** Visual scale of a slide at fractional distance `x` from the centre. */
  function CalcScale(x: real): (r: real)
    ensures 0.0 <= r <= 1.0
    ensures r == 0.0 <==> x * x >= 5.0
    ensures x == 0.0 ==> r == 1.0
  {
    var formula := 1.0 - 1.0 / 5.0 * (x * x);
    if formula <= 0.0 then 0.0 else formula
  }

  lemma CalcScaleSymmetric(x: real)
    ensures CalcScale(-x) == CalcScale(x)
  {
  }

  /** A slide is fully transparent exactly when its scale is 0. */
  function Opacity(scale: real): (o: int)
  {
    if scale == 0.0 then 0 else 1
  }

  lemma HiddenExactlyWhenFar(x: real)
    ensures Opacity(CalcScale(x)) == 0 <==> x * x >= 5.0
  {
  }

  /** The geometry a carousel is configured with: container width, distance
      between the centres of neighbouring slots, and slide width. */
  datatype Layout = Layout(sizeContainer: real, spacing: real, slideWidth: real)

  /** Left edge of a slide at fractional slot `x`. */
  function CalcPos(g: Layout, x: real): (left: real)
    ensures left + g.slideWidth / 2.0 - g.sizeContainer / 2.0 == x * g.spacing
  {
    g.sizeContainer / 2.0 + x * g.spacing - g.slideWidth / 2.0
  }

  /** Slot 0 is horizontally centred in the container. */
  lemma CentreSlotIsCentred(g: Layout)
    ensures CalcPos(g, 0.0) + g.slideWidth / 2.0 == g.sizeContainer / 2.0
  {
  }

  /** Positions differ by `spacing` per unit of slot. */
  lemma PositionIsAffine(g: Layout, x: real, y: real)
    ensures CalcPos(g, x) - CalcPos(g, y) == (x - y) * g.spacing
  {
  }

  // ---------------------------------------------------------------------------
  // The style a carousel writes on each slide element

  /** `x` is the data-x attribute (the slide's logical slot); the rest is its
      inline style. */
  datatype Slide = Slide(x: int, scale: real, left: real, zIndex: int, opacity: int)

  /** The style written for a slide shown at fractional slot `pos`. */
  function Restyle(s: Slide, g: Layout, pos: real): Slide
  {
    var sc := CalcScale(pos);
    s.(scale := sc, left := CalcPos(g, pos), opacity := Opacity(sc))
  }

  /** The slide elements before build: no data-x and no style. Slider.tsx reads
      a missing data-x as 0; Slider.jsx would read NaN, but it never reads
      data-x before build has written it. */
  const Unstyled := Slide(0, 1.0, 0.0, 0, 1)

  /** The complete style build writes on the slide it puts at slot `slot`. */
  function Placed(g: Layout, slot: int): Slide
  {
    var sc := CalcScale(slot as real);
    Slide(slot, sc, CalcPos(g, slot as real), -Abs(slot), Opacity(sc))
  }

  // ---------------------------------------------------------------------------
  // The cyclic slot layout
  //
  // build puts slide i at slot i - n/2, so the n slots are the contiguous range
  // Lo(n)..Hi(n). Every reordering step turns that layout by one place, wrapping
  // the extreme slot to the opposite extreme. After a net turn of d places,
  // slide i sits at SlotOf(n, i, d) and slot k holds slide SlideAt(n, k, d).

  function Lo(n: nat): int { -(n / 2) }

  function Hi(n: nat): int { n - 1 - n / 2 }

  predicate IsSlot(n: nat, s: int)
  {
    Lo(n) <= s <= Hi(n)
  }

  /** The n slots. The bounds make the set finite; the IsSlot conjunct, the
      same condition, gives the comprehension a trigger. */
  function SlotRange(n: nat): set<int>
  {
    set s: int | Lo(n) <= s <= Hi(n) && IsSlot(n, s)
  }

  /** The slot of slide i after a net turn of d places, 0 <= d < n. */
  function SlotOf(n: nat, i: int, d: int): int
    requires 0 <= i < n && 0 <= d < n
  {
    (if i + d < n then i + d else i + d - n) - n / 2
  }

  /** The slide at slot k after a net turn of d places. */
  function SlideAt(n: nat, k: int, d: int): int
    requires IsSlot(n, k) && 0 <= d < n
  {
    var j := k + n / 2 - d;
    if j < 0 then j + n else j
  }

  /** The net turn d followed by t more places (one wrap suffices for |t| <= n). */
  function Turn(n: nat, d: int, t: int): (e: int)
    requires 0 <= d < n && -(n as int) <= t <= n
    ensures 0 <= e < n
  {
    var s := d + t;
    if s >= n then s - n else if s < 0 then s + n else s
  }

  lemma SlotInRange(n: nat, i: int, d: int)
    requires 0 <= i < n && 0 <= d < n
    ensures IsSlot(n, SlotOf(n, i, d)) && SlotOf(n, i, d) in SlotRange(n)
  {
  }

  /** Slot k holds the slide whose slot is k. */
  lemma SlotOfSlideAt(n: nat, k: int, d: int)
    requires IsSlot(n, k) && 0 <= d < n
    ensures 0 <= SlideAt(n, k, d) < n
    ensures SlotOf(n, SlideAt(n, k, d), d) == k
  {
  }

  /** Slide i is held by the slot it sits at; so distinct slides never share
      a slot. */
  lemma SlideAtSlotOf(n: nat, i: int, d: int)
    requires 0 <= i < n && 0 <= d < n
    ensures IsSlot(n, SlotOf(n, i, d))
    ensures SlideAt(n, SlotOf(n, i, d), d) == i
  {
  }

  /** A turn to the right moves every slide one slot right, except that the
      slide at the highest slot wraps to the lowest. */
  lemma TurnRight(n: nat, i: int, d: int)
    requires 0 <= i < n && 0 <= d < n
    ensures SlotOf(n, i, Turn(n, d, 1)) ==
      if SlotOf(n, i, d) == Hi(n) then Lo(n) else SlotOf(n, i, d) + 1
  {
  }

  /** A turn to the left moves every slide one slot left, except that the
      slide at the lowest slot wraps to the highest. */
  lemma TurnLeft(n: nat, i: int, d: int)
    requires 0 <= i < n && 0 <= d < n
    ensures SlotOf(n, i, Turn(n, d, -1)) ==
      if SlotOf(n, i, d) == Lo(n) then Hi(n) else SlotOf(n, i, d) - 1
  {
  }

  /** The net turn after k single steps to the right from d. */
  function TurnsRight(n: nat, d: int, k: nat): (e: int)
    requires 0 <= d < n
    ensures 0 <= e < n
  {
    if k == 0 then d else Turn(n, TurnsRight(n, d, k - 1), 1)
  }

  /** Up to n single steps to the right add up to one turn of k places. */
  lemma {:induction false} TurnsRightAddUp(n: nat, d: int, k: nat)
    requires 0 <= d < n && k <= n
    ensures TurnsRight(n, d, k) == Turn(n, d, k)
  {
    if k > 0 {
      TurnsRightAddUp(n, d, k - 1);
    }
  }

  /** n single steps to the right bring every slide back to its slot, so the
      carousel loops with period n. */
  lemma FullTurn(n: nat, i: int, d: int)
    requires 0 <= i < n && 0 <= d < n
    ensures SlotOf(n, i, TurnsRight(n, d, n)) == SlotOf(n, i, d)
  {
    TurnsRightAddUp(n, d, n);
  }

  /** Exactly one slide sits at slot 0, the centre. */
  lemma ExactlyOneCentred(n: nat, i: int, d: int)
    requires 0 <= i < n && 0 <= d < n
    ensures IsSlot(n, 0) && 0 <= SlideAt(n, 0, d) < n
    ensures SlotOf(n, i, d) == 0 <==> i == SlideAt(n, 0, d)
  {
  }
}
