/** The earlier carousel of src/components/Slider.jsx. Cards get slots
    i - (n-1)/2; checkOrdering wraps a card that leaves the range by adding or
    subtracting 2c + 1 (c the centre index) instead of looking up the extreme
    slots, and records the card in `xScale` under its new slot plus the drag's
    rounded step. The slots are only written back to the cards' data-x when
    the gesture ends. The source fixes n = 5; the model takes any odd n. */
module SliderJs {
  import opened Carousel

  /** Distance in pixels between the centres of neighbouring card slots. */
  const Spacing: real := 150.0

  /** (n-1)/2, the centre index of an odd number of cards. */
  function CenterIndex(n: nat): (c: int)
    requires n % 2 == 1
    ensures c >= 0 && c + c + 1 == n
    ensures Lo(n) == -c && Hi(n) == c
  {
    (n - 1) / 2
  }

  /** With the five images of the source the slots are -2..2. */
  lemma FiveCards()
    ensures CenterIndex(5) == 2 && Lo(5) == -2 && Hi(5) == 2
  {
  }

  /** Math.round: the nearest integer, halves rounded up. */
  function Round(x: real): (r: int)
    ensures r as real - 0.5 <= x < r as real + 0.5
  {
    (x + 0.5).Floor
  }

  /** A drag shorter than half a slot, and the end of the gesture, do not step. */
  lemma ShortDragDoesNotStep(xDist: real)
    requires -0.5 <= xDist < 0.5
    ensures Round(xDist) == 0
  {
  }

  /** The second scale formula, 1 - |x|/5, computed for build and moveCards
      and handed to calcPos, which ignores it. */
  function CalcScale2(x: real): (r: real)
    ensures r == 1.0 - AbsReal(x) / 5.0
  {
    if x <= 0.0 then 1.0 + x / 5.0 else 1.0 - x / 5.0
  }

  lemma CalcScale2Shape(x: real)
    ensures CalcScale2(-x) == CalcScale2(x)
    ensures CalcScale2(x) <= 1.0
    ensures CalcScale2(x) == 1.0 <==> x == 0.0
  {
  }

  /** calcPos of this carousel: the left edge of a card at fractional slot
      `x`, whose centre lies x * 150 pixels from the container's centre,
      whatever `scale` is. */
  function CalcCardPos(containerWidth: real, x: real, scale: real, cardWidth: real): (left: real)
    ensures left + cardWidth / 2.0 - containerWidth / 2.0 == x * Spacing
    ensures left == Carousel.CalcPos(Layout(containerWidth, Spacing, cardWidth), x)
  {
    var center := containerWidth / 2.0;
    center + x * Spacing - cardWidth / 2.0
  }

  /** checkOrdering's newX for a card whose data-x is `original`, read at `x`,
      for the rounded drag `rounded` and centre index `c`. The card is keyed
      in xScale, and stacked, at newX + rounded. */
  function NewSlot(original: int, x: int, rounded: int, c: int): (newX: int)
    ensures rounded == 0 ==> newX == x
    ensures x == original && rounded > 0 ==>
              newX + rounded == if x + rounded > c then x + rounded - (c + c + 1) else x + rounded
    ensures x == original && rounded < 0 ==>
              newX + rounded == if x + rounded < -c then x + rounded + (c + c + 1) else x + rounded
  {
    if x != x + rounded then
      if x + rounded > original && x + rounded > c then ((x + rounded - 1) - c) - rounded + -c
      else if x + rounded < original && x + rounded < -c then ((x + rounded + 1) + c) - rounded + c
      else x
    else x
  }

  /** A drag of up to n slots turns the whole layout: the key of a card at its
      data-x slot after net turn d is its slot after turn d + rounded. */
  lemma KeyTurnsLayout(n: nat, i: int, d: int, rounded: int)
    requires n % 2 == 1 && 0 <= i < n && 0 <= d < n
    requires rounded != 0 && -(n as int) <= rounded <= n
    ensures NewSlot(SlotOf(n, i, d), SlotOf(n, i, d), rounded, CenterIndex(n)) + rounded
            == SlotOf(n, i, Turn(n, d, rounded))
  {
  }

  /** A drag of more than n slots can key a card outside the slot range: with
      five cards, the card at slot 2 dragged six slots right is keyed at 3. */
  lemma WideDragLeavesRange()
    ensures NewSlot(2, 2, 6, CenterIndex(5)) + 6 == 3 && !IsSlot(5, 3)
  {
  }

  /** On release a card at slot k is stacked at | |k| - c |; within the slot
      range that is c - |k|, so the centre card ends up on top. */
  lemma ReleaseStacksCentreOnTop(n: nat, k: int)
    requires n % 2 == 1 && IsSlot(n, k)
    ensures Abs(Abs(k) - CenterIndex(n)) == CenterIndex(n) - Abs(k) >= 0
    ensures k != 0 ==> Abs(Abs(k) - CenterIndex(n)) < Abs(Abs(0) - CenterIndex(n))
  {
  }

  /** `m` after the assignments m[keys[0]] := 0, ..., m[keys[|keys|-1]] := |keys|-1
      in that order, as the drag loop of moveCards performs them. */
  function Keyed(m: map<int, int>, keys: seq<int>): (r: map<int, int>)
    ensures r.Keys == m.Keys + set j | 0 <= j < |keys| :: keys[j]
  {
    if |keys| == 0 then m
    else Keyed(m, keys[..|keys| - 1])[keys[|keys| - 1] := |keys| - 1]
  }

  /** With distinct keys, each key ends up mapped to its own position, and
      every other entry of m is kept. */
  lemma {:induction false} KeyedDistinct(m: map<int, int>, keys: seq<int>)
    requires forall j, l | 0 <= j < l < |keys| :: keys[j] != keys[l]
    ensures forall j | 0 <= j < |keys| :: Keyed(m, keys)[keys[j]] == j
    ensures forall k | k in m && k !in keys :: Keyed(m, keys)[k] == m[k]
  {
    if |keys| > 0 {
      KeyedDistinct(m, keys[..|keys| - 1]);
      forall k | k in m && k !in keys
        ensures k !in keys[..|keys| - 1]
      {
      }
    }
  }

  /** The keys the drag loop of moveCards writes, card by card, when each card
      is read at its data-x and the drag rounds to `rounded`. */
  function DragKeys(cards: seq<Slide>, rounded: int, c: int): (keys: seq<int>)
    ensures |keys| == |cards|
  {
    seq(|cards|, i requires 0 <= i < |cards| => NewSlot(cards[i].x, cards[i].x, rounded, c) + rounded)
  }

  /** xScale shows the layout turned by t: every slot is a key, no other key
      is, and slot k maps to the card at k. */
  ghost predicate Shows(n: nat, m: map<int, int>, t: int)
    requires 0 <= t < n
  {
    && (forall k | k in m :: IsSlot(n, k))
    && (forall k | IsSlot(n, k) :: k in m && m[k] == SlideAt(n, k, t))
  }

  /** A drag of 1 to n slots from a layout at net turn d leaves xScale showing
      the layout turned by d + rounded, whatever it held within the slots. */
  lemma TurnedKeysShow(n: nat, m: map<int, int>, cards: seq<Slide>, d: int, rounded: int)
    requires n % 2 == 1 && 0 <= d < n && |cards| == n
    requires forall i | 0 <= i < n :: cards[i].x == SlotOf(n, i, d)
    requires rounded != 0 && -(n as int) <= rounded <= n
    requires forall k | k in m :: IsSlot(n, k)
    ensures Shows(n, Keyed(m, DragKeys(cards, rounded, CenterIndex(n))), Turn(n, d, rounded))
  {
    var t := Turn(n, d, rounded);
    var keys := DragKeys(cards, rounded, CenterIndex(n));
    forall i | 0 <= i < n
      ensures keys[i] == SlotOf(n, i, t) && IsSlot(n, keys[i]) && SlideAt(n, keys[i], t) == i
    {
      KeyTurnsLayout(n, i, d, rounded);
      SlideAtSlotOf(n, i, t);
    }
    forall j, l | 0 <= j < l < n
      ensures keys[j] != keys[l]
    {
    }
    KeyedDistinct(m, keys);
    forall k | IsSlot(n, k)
      ensures k in keys
    {
      SlotOfSlideAt(n, k, t);
      assert keys[SlideAt(n, k, t)] == k;
    }
  }

  class Slider {
    const n: nat
    const containerWidth: real
    const cardWidth: real
    var cards: seq<Slide>
    var xScale: map<int, int>

    ghost predicate Valid()
      reads this
    {
      && n % 2 == 1
      && |cards| == n
      && (forall k | k in xScale :: 0 <= xScale[k] < n)
    }

    /** The geometry calcPos works with. */
    function Geometry(): Layout
      reads this
    {
      Layout(containerWidth, Spacing, cardWidth)
    }

    /** Every card i sits at data-x slot SlotOf(n, i, d). */
    ghost predicate LaidOut(d: int)
      requires Valid() && 0 <= d < n
      reads this
    {
      forall i | 0 <= i < n :: cards[i].x == SlotOf(n, i, d)
    }

    constructor (n: nat, containerWidth: real, cardWidth: real)
      requires n % 2 == 1
      ensures Valid()
      ensures this.n == n && this.containerWidth == containerWidth && this.cardWidth == cardWidth
      ensures cards == seq(n, _ => Unstyled) && xScale == map[]
    {
      this.n := n;
      this.containerWidth := containerWidth;
      this.cardWidth := cardWidth;
      cards := seq(n, _ => Unstyled);
      xScale := map[];
    }

    /** build: card i goes to slot i - c with its scale, left edge and
        z-index, and xScale maps the slot back to the card. */
    method Build()
      requires Valid()
      modifies this`cards, this`xScale
      ensures Valid()
      ensures forall i | 0 <= i < n :: cards[i] == Placed(Geometry(), i - CenterIndex(n))
      ensures LaidOut(0)
      ensures xScale.Keys == old(xScale).Keys + SlotRange(n)
      ensures forall k | IsSlot(n, k) :: xScale[k] == SlideAt(n, k, 0)
      ensures old(xScale).Keys <= SlotRange(n) ==> Shows(n, xScale, 0)
    {
      var centerIndex := CenterIndex(n);
      var i := 0;
      while i < n
        invariant 0 <= i <= n && |cards| == n
        invariant forall j | 0 <= j < n :: cards[j] == if j < i then Placed(Geometry(), j - centerIndex) else old(cards[j])
        invariant forall k :: k in xScale <==> k in old(xScale) || -centerIndex <= k < i - centerIndex
        invariant forall k | k in xScale ::
                    xScale[k] == if -centerIndex <= k < i - centerIndex then k + centerIndex else old(xScale)[k]
      {
        var x := i - centerIndex;
        var scale := CalcScale(x as real);
        var scale2 := CalcScale2(x as real);
        var zIndex := -Abs(i - centerIndex);
        var leftPos := CalcCardPos(containerWidth, x as real, scale2, cardWidth);
        xScale := xScale[x := i];
        cards := cards[i := Slide(x, scale, leftPos, zIndex, Opacity(scale))];
        i := i + 1;
      }
    }

    /** checkOrdering for card i read at slot x: a drag that rounds to a
        non-zero step keys the card in xScale at newX + rounded, and the card
        is stacked at minus the distance of that key from the centre. */
    method CheckOrdering(i: nat, x: int, xDist: real) returns (newX: int)
      requires Valid() && i < n
      modifies this`cards, this`xScale
      ensures Valid()
      ensures newX == NewSlot(old(cards[i].x), x, Round(xDist), CenterIndex(n))
      ensures xScale == if Round(xDist) != 0 then old(xScale)[newX + Round(xDist) := i] else old(xScale)
      ensures cards == old(cards)[i := old(cards[i]).(zIndex := -Abs(newX + Round(xDist)))]
    {
      var centerIndex := CenterIndex(n);
      var original := cards[i].x;
      var rounded := Round(xDist);
      newX := x;
      if x != x + rounded {
        if x + rounded > original && x + rounded > centerIndex {
          newX := ((x + rounded - 1) - centerIndex) - rounded + -centerIndex;
        } else if x + rounded < original && x + rounded < -centerIndex {
          newX := ((x + rounded + 1) + centerIndex) - rounded + centerIndex;
        }
        xScale := xScale[newX + rounded := i];
      }
      var temp := -Abs(newX + rounded);
      cards := cards[i := cards[i].(zIndex := temp)];
    }

    /** The release branch of moveCards: each entry of xScale, in some order,
        writes its key as its card's data-x and stacks the card at
        | |key| - c |. A card with several keys keeps the last one written. */
    method SnapToKeys()
      requires Valid()
      modifies this`cards
      ensures Valid()
      ensures forall i | 0 <= i < n ::
                if exists k | k in xScale :: xScale[k] == i then
                  && cards[i].x in xScale && xScale[cards[i].x] == i
                  && cards[i] == old(cards[i]).(x := cards[i].x, zIndex := Abs(Abs(cards[i].x) - CenterIndex(n)))
                else cards[i] == old(cards[i])
    {
      var centerIndex := CenterIndex(n);
      var keys := xScale.Keys;
      while keys != {}
        invariant keys <= xScale.Keys && |cards| == n
        invariant forall i | 0 <= i < n ::
                    if exists k | k in xScale && k !in keys :: xScale[k] == i then
                      && cards[i].x in xScale && xScale[cards[i].x] == i
                      && cards[i] == old(cards[i]).(x := cards[i].x, zIndex := Abs(Abs(cards[i].x) - centerIndex))
                    else cards[i] == old(cards[i])
        decreases keys
      {
        HasElement(keys);
        var x :| x in keys;
        cards := cards[xScale[x] := cards[xScale[x]].(x := x, zIndex := Abs(Abs(x) - centerIndex))];
        keys := keys - {x};
      }
    }

    /** When xScale shows the layout turned by t, release lays every card out
        at its slot in that layout. */
    lemma SnapLaysOut(t: int, before: seq<Slide>)
      requires Valid() && 0 <= t < n && Shows(n, xScale, t) && |before| == n
      requires forall i | 0 <= i < n ::
                 if exists k | k in xScale :: xScale[k] == i then
                   cards[i].x in xScale && xScale[cards[i].x] == i
                 else cards[i] == before[i]
      ensures LaidOut(t)
    {
      forall i | 0 <= i < n
        ensures cards[i].x == SlotOf(n, i, t)
      {
        SlideAtSlotOf(n, i, t);
        var k := SlotOf(n, i, t);
        assert xScale[k] == i;
        SlotOfSlideAt(n, cards[i].x, t);
      }
    }

    /** One pass of the drag loop of moveCards: card i is read at its data-x,
        keyed by checkOrdering and restyled at newX plus the drag. */
    method DragOne(i: nat, xDist: real)
      requires Valid() && i < n
      modifies this`cards, this`xScale
      ensures Valid()
      ensures var newX := NewSlot(old(cards[i].x), old(cards[i].x), Round(xDist), CenterIndex(n));
              && xScale == (if Round(xDist) == 0 then old(xScale) else old(xScale)[newX + Round(xDist) := i])
              && cards == old(cards)[i := Restyle(old(cards[i]).(zIndex := -Abs(newX + Round(xDist))),
                                                  Geometry(), newX as real + xDist)]
    {
      var x := CheckOrdering(i, cards[i].x, xDist);
      var scale := CalcScale(x as real + xDist);
      var scale2 := CalcScale2(x as real + xDist);
      var leftPos := CalcCardPos(containerWidth, x as real + xDist, scale2, cardWidth);
      cards := cards[i := cards[i].(scale := scale, left := leftPos, opacity := Opacity(scale))];
    }

    /** The loop of moveCards over all cards for a drag of `xDist` slots. */
    method DragAll(xDist: real)
      requires Valid()
      modifies this`cards, this`xScale
      ensures Valid()
      ensures xScale == if Round(xDist) == 0 then old(xScale)
                        else Keyed(old(xScale), DragKeys(old(cards), Round(xDist), CenterIndex(n)))
      ensures forall i | 0 <= i < n ::
                var newX := NewSlot(old(cards[i].x), old(cards[i].x), Round(xDist), CenterIndex(n));
                cards[i] == Restyle(old(cards[i]).(zIndex := -Abs(newX + Round(xDist))), Geometry(), newX as real + xDist)
    {
      ghost var rounded := Round(xDist);
      ghost var keys := DragKeys(cards, rounded, CenterIndex(n));
      var i := 0;
      while i < n
        invariant 0 <= i <= n && Valid()
        invariant xScale == if rounded == 0 then old(xScale) else Keyed(old(xScale), keys[..i])
        invariant forall j | 0 <= j < n ::
                    var newX := NewSlot(old(cards[j].x), old(cards[j].x), rounded, CenterIndex(n));
                    cards[j] == if j < i then Restyle(old(cards[j]).(zIndex := -Abs(newX + rounded)), Geometry(), newX as real + xDist)
                                else old(cards[j])
      {
        DragOne(i, xDist);
        assert keys[..i + 1][..i] == keys[..i];
        i := i + 1;
      }
      assert keys[..n] == keys;
    }

    /** moveCards with `data` the gesture's displacement in pixels, or None
        when the gesture ends. */
    method MoveCards(data: Option<real>)
      requires Valid()
      modifies this`cards, this`xScale
      ensures Valid()
      ensures data.Some? ==>
                xScale == if Round(XDist(data)) == 0 then old(xScale)
                          else Keyed(old(xScale), DragKeys(old(cards), Round(XDist(data)), CenterIndex(n)))
      ensures data.Some? ==>
                forall i | 0 <= i < n ::
                  var newX := NewSlot(old(cards[i].x), old(cards[i].x), Round(XDist(data)), CenterIndex(n));
                  cards[i] == Restyle(old(cards[i]).(zIndex := -Abs(newX + Round(XDist(data)))), Geometry(),
                                      newX as real + XDist(data))
      ensures data.None? ==> xScale == old(xScale)
      ensures data.None? ==>
                forall i | 0 <= i < n ::
                  && (if exists k | k in xScale :: xScale[k] == i then cards[i].x in xScale && xScale[cards[i].x] == i
                      else cards[i].x == old(cards[i].x))
                  && cards[i] == Restyle(old(cards[i]).(x := cards[i].x, zIndex := -Abs(cards[i].x)), Geometry(), cards[i].x as real)
    {
      var xDist := XDist(data);
      if data.None? {
        SnapToKeys();
        ghost var mid := cards;
        DragAll(xDist);
        assert Round(xDist) == 0;
        forall i | 0 <= i < n
          ensures cards[i] == Restyle(mid[i].(zIndex := -Abs(mid[i].x)), Geometry(), mid[i].x as real)
          ensures mid[i] == old(cards[i]).(x := mid[i].x, zIndex := mid[i].zIndex)
        {
        }
      } else {
        DragAll(xDist);
      }
    }
  }
}
