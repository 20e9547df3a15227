# slider-carousel: slot arithmetic of the drag carousels and the three-image slider

This project models the slot arithmetic of the slider-carousel React components.

**The drag carousels** (`Slider.tsx` and its earlier variant `Slider.jsx`):
- Each slide (card) carries a signed integer slot in its `data-x` attribute. Slot 0 is the centre.
- `build` lays out n slides at slots `i - centerIndex` and records each slot in `xScale`, a map from slot to slide. `Slider.tsx` also records the slots in the set `indexArray`.
- `build` styles every slide by its slot:
  - scale `max(0, 1 - x²/5)`;
  - opacity 0 exactly when the scale is 0;
  - left edge `container/2 + x*spacing - width/2`;
  - z-index `-|x|`.
- While a mouse or finger drags, the displacement in pixels divided by 250 becomes `xDist`, in slot widths. In `Slider.tsx`, `checkOrdering` then moves every slide one slot in the drag's direction once |xDist| ≥ 0.3. In `Slider.jsx` it moves every card by `Math.round(xDist)` slots, wrapping by n once the card passes c or -c (c the centre index). A slide leaving one end of the slot range wraps to the other end, so a fixed pool of slides seems to loop forever.
- When the gesture ends, the slots recorded in `xScale` are written back to the slides.

**The three-image slider** (`ImageSlider2.jsx`):
- It keeps a middle image, steps it forward or backward through the images with wrap-around, and keeps the left and right neighbours next to it.

Modules:
- `Carousel` (`carousel.dfy`) holds what both drag carousels share:
  - the gesture displacement;
  - the scale and position formulas;
  - the style record `Slide`;
  - the cyclic slot layout.

  After a net turn of `d` places (0 ≤ d < n), slide i sits at `SlotOf(n, i, d)` and slot k holds slide `SlideAt(n, k, d)`. Every reordering of `Slider.tsx` is proved to be a turn of this layout. So is every reordering of `Slider.jsx` for a drag of at most n slots. A wider `Slider.jsx` drag is not a turn: `SliderJs.WideDragLeavesRange` exhibits a card keyed outside the slot range.
- `SliderTs` (`slider_ts.dfy`) models `src/components/Slider.tsx`.
  - `SliderTs.Slider` is a class whose fields are the slides' records, `indexArray` and `xScale`.
  - Its ghost fields `settled` and `shown` are the net turns held in the `data-x` attributes and in `xScale`.
  - `Valid()` states that both fields are turns of the layout that `build` produced.
- `SliderJs` (`slider_js.dfy`) models `src/components/Slider.jsx` in the same way, as the class `SliderJs.Slider`.
- `ImageSlider` (`image_slider2.dfy`) models `src/components/ImageSlider2.jsx` as the class `ImageSlider.ImageSlider2`. Its fields are `midImage`, `rightImage` and `leftImage`.

Pixel arithmetic is stated over Dafny `real`, which is exact. The DOM is replaced by the `Slide` record `(x, scale, left, zIndex, opacity)`. A slide element is identified by its index in the slide list, and `xScale` maps slots to those indices.

## Model

| member | source | states |
|---|---|---|
| Carousel.Displacement | src/components/Slider.tsx:89-101 | the handler built from the press event yields the move event's clientX minus the press event's clientX, mouse or touch alike; a `null` move yields `null` |
| Carousel.NoMovementNoDisplacement | src/components/Slider.tsx:96-99 | a move event at the press position gives displacement 0 |
| Carousel.XDist | src/components/Slider.tsx:257-264 | the drag in slot widths is the pixel displacement over 250; at the end of the gesture it is 0 |
| Carousel.CalcScale | src/components/Slider.tsx:157-160 | the scale lies in [0, 1], is 0 exactly when x² ≥ 5, and is 1 at x = 0 |
| Carousel.CalcScaleSymmetric | src/components/Slider.jsx:81-84 | the scale formula (the same in both carousels) is symmetric in x |
| Carousel.HiddenExactlyWhenFar | src/components/Slider.tsx:146-149 | a slide is transparent exactly when its scale is 0, that is exactly when x² ≥ 5 |
| Carousel.CalcPos | src/components/Slider.tsx:132-139 | the centre of a slide at fractional slot x lies x * spacing from the container's centre |
| Carousel.CentreSlotIsCentred | src/components/Slider.tsx:132-139 | slot 0 is horizontally centred in the container |
| Carousel.PositionIsAffine | src/components/Slider.tsx:132-139 | positions of two slots differ by spacing per unit of slot |
| Carousel.Turn | src/components/Slider.tsx:174-189 | a net turn stays in [0, n) after one more turn of at most n places |
| Carousel.SlotInRange | src/components/Slider.tsx:216-221 | every slide's slot lies in the contiguous range the build hands out, -⌊n/2⌋ .. n-1-⌊n/2⌋ |
| Carousel.SlotOfSlideAt | src/components/Slider.tsx:230 | the slide recorded at slot k sits at slot k |
| Carousel.SlideAtSlotOf | src/components/Slider.tsx:230 | the slot of a slide records that slide, so no two slides share a slot |
| Carousel.TurnRight | src/components/Slider.tsx:174-180 | a turn to the right moves every slide one slot up, the highest slot wrapping to the lowest |
| Carousel.TurnLeft | src/components/Slider.tsx:181-187 | a turn to the left moves every slide one slot down, the lowest slot wrapping to the highest |
| Carousel.TurnsRight | src/components/Slider.tsx:174-180 | k single turns to the right keep the net turn in [0, n) |
| Carousel.TurnsRightAddUp | src/components/Slider.tsx:174-180 | up to n single turns to the right add up to one turn of that many places |
| Carousel.FullTurn | src/components/Slider.tsx:174-180 | n steps to the right bring every slide back to its slot: the carousel loops with period n |
| Carousel.ExactlyOneCentred | src/components/Slider.tsx:220 | exactly one slide sits at slot 0 in every turn of the layout |
| SliderTs.CenterIndex | src/components/Slider.tsx:208-213 | the centre index is n/2 for even n and (n-1)/2 for odd n, that is ⌊n/2⌋ |
| SliderTs.Step | src/components/Slider.tsx:169 | the step is +1 for xDist ≥ 0.3, -1 for xDist ≤ -0.3, and 0 in between |
| SliderTs.ReleaseDoesNotStep | src/components/Slider.tsx:260-264 | at the end of the gesture (xDist = 0) no slide changes slot |
| SliderTs.NewSlot | src/components/Slider.tsx:170-189 | without a step the slot is unchanged; for a slide read at its data-x, a right step gives slot + 1 with the maximum wrapping to the minimum, a left step gives slot - 1 with the minimum wrapping to the maximum; the result stays within [min, max] |
| SliderTs.StepTurnsLayout | src/components/Slider.tsx:174-189 | a step moves a slide from its slot in a turned layout to its slot in the layout turned one more place |
| SliderTs.SetMax | src/components/Slider.tsx:176 | Math.max of the non-empty slot set is an element not smaller than any other |
| SliderTs.SetMin | src/components/Slider.tsx:177 | Math.min of the non-empty slot set is an element not larger than any other |
| SliderTs.OneOnTop | src/components/Slider.tsx:195-196 | when every slide is stacked at minus its distance from the centre, one slide has z-index 0 and all others are below it |
| SliderTs.Slider.constructor | src/components/Slider.tsx:28-30 | before build no slot is recorded and the slides carry no data-x |
| SliderTs.Slider.Build | src/components/Slider.tsx:203-241 | slide i gets slot i - ⌊n/2⌋ with its scale, left edge and z-index -\|slot\|; indexArray is the whole slot range and xScale maps each slot to its slide; does nothing for no slides |
| SliderTs.Slider.CheckOrdering | src/components/Slider.tsx:162-201 | returns NewSlot's slot, records the slide in xScale at that slot when there is a step, and stacks the slide at minus the slot's distance from the centre |
| SliderTs.Slider.SnapToKeys | src/components/Slider.tsx:265-274 | on release, in any order of the xScale keys, every slide takes the slot xScale records for it as data-x and is stacked at \| \|slot\| - centerIndex \|; the data-x layout becomes the one xScale shows |
| SliderTs.Slider.DragOne | src/components/Slider.tsx:277-289 | one pass of the loop turns slide i by the drag's step, records it in xScale, and places it at its new slot plus the drag |
| SliderTs.Slider.DragAll | src/components/Slider.tsx:277-290 | after the loop xScale shows the data-x layout turned by the drag's step, and every slide is styled at its turned slot plus the drag |
| SliderTs.Slider.MoveSlides | src/components/Slider.tsx:243-291 | a move keeps data-x and turns the xScale layout by the step; a release first writes xScale's layout to data-x; afterwards exactly one slide is on top, at z-index 0 |
| SliderJs.CenterIndex | src/components/Slider.jsx:114 | for an odd number of cards the centre index c satisfies 2c + 1 = n and the slots run from -c to c |
| SliderJs.FiveCards | src/components/Slider.jsx:9 | with the five images the centre index is 2 and the slots are -2..2 |
| SliderJs.Round | src/components/Slider.jsx:92 | Math.round gives the integer within half a unit of x, halves rounded up |
| SliderJs.ShortDragDoesNotStep | src/components/Slider.jsx:92-95 | a drag of less than half a slot, and the release, leave the slot unchanged |
| SliderJs.CalcScale2 | src/components/Slider.jsx:86-88 | the second scale is 1 - \|x\|/5 |
| SliderJs.CalcScale2Shape | src/components/Slider.jsx:86-88 | the second scale is symmetric, at most 1, and 1 exactly at x = 0 |
| SliderJs.CalcCardPos | src/components/Slider.jsx:60-65 | a card's centre lies x * 150 pixels from the container's centre, whatever scale is passed |
| SliderJs.NewSlot | src/components/Slider.jsx:90-100 | without a step the slot is unchanged; a card read at its data-x is keyed at slot + rounded, wrapped by 2c + 1 (that is n) once it passes c or -c |
| SliderJs.KeyTurnsLayout | src/components/Slider.jsx:96-102 | for a drag of 1 to n slots a card's key is its slot in the layout turned by the drag |
| SliderJs.WideDragLeavesRange | src/components/Slider.jsx:96-102 | with five cards a drag rounding to 6 keys the card at slot 2 at slot 3, outside the range |
| SliderJs.ReleaseStacksCentreOnTop | src/components/Slider.jsx:151 | on release a card at slot k is stacked at c - \|k\| ≥ 0, so the centre card is above all others |
| SliderJs.Keyed | src/components/Slider.jsx:102 | the keys of xScale after the drag loop are the old keys plus every key written |
| SliderJs.KeyedDistinct | src/components/Slider.jsx:102 | with distinct keys each key maps to the card that wrote it and other entries are kept |
| SliderJs.DragKeys | src/components/Slider.jsx:158-159 | the drag loop writes one key per card |
| SliderJs.TurnedKeysShow | src/components/Slider.jsx:96-102 | a drag of 1 to n slots from a laid-out carousel leaves xScale holding exactly the turned layout |
| SliderJs.Slider.constructor | src/components/Slider.jsx:12-14 | before build xScale is empty |
| SliderJs.Slider.Build | src/components/Slider.jsx:111-133 | card i gets slot i - c with its scale, left edge and z-index -\|slot\|; xScale maps every slot to its card |
| SliderJs.Slider.CheckOrdering | src/components/Slider.jsx:90-109 | returns NewSlot's slot, keys the card at newX + rounded when rounded ≠ 0, and stacks it at -\|newX + rounded\| |
| SliderJs.Slider.SnapToKeys | src/components/Slider.jsx:148-153 | in any order of the keys, each card some key maps to takes one such key as data-x and is stacked at \| \|key\| - c \|; other cards are untouched |
| SliderJs.Slider.SnapLaysOut | src/components/Slider.jsx:148-153 | when xScale holds a turned layout, release lays every card out at its slot in that layout |
| SliderJs.Slider.DragOne | src/components/Slider.jsx:158-168 | one pass of the loop keys card i and styles it at newX plus the drag |
| SliderJs.Slider.DragAll | src/components/Slider.jsx:158-168 | after the loop xScale has every card's key written in card order and each card is styled at newX plus the drag |
| SliderJs.Slider.MoveCards | src/components/Slider.jsx:135-169 | a move writes the keys; a release writes each card's key back to data-x and styles it at that slot with z-index -\|slot\| |
| ImageSlider.Next | src/components/ImageSlider2.jsx:33-40 | the image after m is (m + 1) mod count |
| ImageSlider.Prev | src/components/ImageSlider2.jsx:41-48 | the image before m is (m - 1 + count) mod count |
| ImageSlider.PrevUndoesNext | src/components/ImageSlider2.jsx:33-48 | decrement after increment restores the middle image |
| ImageSlider.NextUndoesPrev | src/components/ImageSlider2.jsx:33-48 | increment after decrement restores the middle image |
| ImageSlider.NeighboursDiffer | src/components/ImageSlider2.jsx:17-31 | with two images or more both neighbours differ from the middle image |
| ImageSlider.Steps | src/components/ImageSlider2.jsx:33-40 | repeated increments stay within the images |
| ImageSlider.StepsAdd | src/components/ImageSlider2.jsx:33-40 | a + b increments are a increments followed by b |
| ImageSlider.StepsClimb | src/components/ImageSlider2.jsx:33-40 | below the last image, k increments add k |
| ImageSlider.FullCycle | src/components/ImageSlider2.jsx:33-40 | count consecutive increments return the middle image to where it started |
| ImageSlider.ImageSlider2.constructor | src/components/ImageSlider2.jsx:13-15 | the initial state is mid 0, right 1, left count - 1, which already satisfies the neighbour rule when there are two images or more |
| ImageSlider.ImageSlider2.Increment | src/components/ImageSlider2.jsx:33-40 | the middle image steps forward, the last wrapping to the first, and stays in range |
| ImageSlider.ImageSlider2.Decrement | src/components/ImageSlider2.jsx:41-48 | the middle image steps backward, the first wrapping to the last, and stays in range |
| ImageSlider.ImageSlider2.SyncNeighbours | src/components/ImageSlider2.jsx:17-31 | with two images or more the right neighbour is (mid + 1) mod count and the left (mid - 1 + count) mod count, both in range; with one image the right neighbour becomes 1, out of range |
| ImageSlider.ImageSlider2.ClickRight | src/components/ImageSlider2.jsx:54 | clicking the right image moves it to the middle and the old middle image becomes the left neighbour |
| ImageSlider.ImageSlider2.ClickLeft | src/components/ImageSlider2.jsx:56 | clicking the left image moves it to the middle and the old middle image becomes the right neighbour |

## Left out

- Browser event plumbing is not modelled. This covers `initDrag`, `getDistance`, adding and removing window and container listeners, and the `useEffect` setup and cleanup. A gesture is the sequence of `MoveSlides`/`MoveCards` calls, with the displacement given by `Displacement`.
- Writing styles to the DOM is not modelled: the CSS strings, `setAttribute` and `parseInt` of `data-x`. A slide's style is the `Slide` record, and `data-x` is its integer field `x`.
- React rendering is not modelled. This covers `useMemo` lists, JSX, the `smooth-return` class toggle, `console.log` and the commented-out `updateCenterSlide`.
- Render scheduling is not modelled. State setters in `ImageSlider2.jsx` take effect at once, and the effect runs when `SyncNeighbours` is called (`ClickRight`/`ClickLeft` call it).
- Floating point is not modelled. Pixels, `xDist`, scale and position are exact reals, so `Math.pow`, the division by 250 and the 0.3 and 0.5 thresholds carry no rounding error.
- Layout measurement is not modelled. `offsetWidth` and the container size become the constants `layout` (tsx) and `containerWidth`/`cardWidth` (jsx).
- Null element references are not modelled. Every slide element is assumed mounted, so the `if (!slide) continue` skips and the null-container early exits are absent; only the "no slides" early exit of `Slider.tsx` is modelled.
- SliderTs.Slider.CheckOrdering requires `indexArray` to be the whole slot range, as it is after `build`. Called before `build`, the source would take `Math.max` of an empty set (`-Infinity`), which the model does not represent.
- SliderTs.Slider.MoveSlides requires the carousel to have been built. A call before `build` is not modelled.
- SliderJs.Slider.constructor requires an odd number of cards. For even n the source's centre index `(n-1)/2` is not an integer, and the slot arithmetic leaves the integers. The source fixes n to 5.
- SliderJs.TurnedKeysShow requires the drag to round to at most n slots. A wider `Slider.jsx` drag keys cards outside the slot range (`SliderJs.WideDragLeavesRange`), so the model promises the turned layout only for drags of at most n slots.
- `Slider.jsx` reads `data-x` with no fallback, so before `build` it would read NaN. Every card in the model starts at `Unstyled`, and `build` always runs before a drag, so that state is not represented.
- `for ... in` over `xScale` visits keys in an order the model leaves open, and the release contracts hold for every order.
- `src/App.tsx` is not part of this model. It only passes props to the component.
