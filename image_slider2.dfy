/** The three-image slider of src/components/ImageSlider2.jsx: the image in
    the middle, `midImage`, steps forward or backward through `count` images
    with wrap-around, and an effect keeps its two neighbours on either side. */
module ImageSlider {

  /** The image after m, wrapping the last image to the first. */
  function Next(count: nat, m: int): (r: int)
    requires 0 <= m < count
    ensures 0 <= r < count
    ensures r == (m + 1) % count
  {
    if m == count - 1 then 0 else m + 1
  }

  /** The image before m, wrapping the first image to the last. */
  function Prev(count: nat, m: int): (r: int)
    requires 0 <= m < count
    ensures 0 <= r < count
    ensures r == (m - 1 + count) % count
  {
    if m == 0 then count - 1
    else
      ModOnce(m - 1 + count, count);
      m - 1
  }

  /** One subtraction of n reduces x modulo n when n <= x < 2n. */
  lemma ModOnce(x: int, n: int)
    requires 0 < n <= x < n + n
    ensures x % n == x - n
  {
  }

  lemma PrevUndoesNext(count: nat, m: int)
    requires 0 <= m < count
    ensures Prev(count, Next(count, m)) == m
  {
  }

  lemma NextUndoesPrev(count: nat, m: int)
    requires 0 <= m < count
    ensures Next(count, Prev(count, m)) == m
  {
  }

  /** With two images or more, both neighbours differ from the middle one. */
  lemma NeighboursDiffer(count: nat, m: int)
    requires count >= 2 && 0 <= m < count
    ensures Next(count, m) != m && Prev(count, m) != m
  {
  }

  /** The image reached from m after k steps forward. */
  function Steps(count: nat, m: int, k: nat): (r: int)
    requires 0 <= m < count
    ensures 0 <= r < count
  {
    if k == 0 then m else Next(count, Steps(count, m, k - 1))
  }

  lemma {:induction false} StepsAdd(count: nat, m: int, a: nat, b: nat)
    requires 0 <= m < count
    ensures Steps(count, m, a + b) == Steps(count, Steps(count, m, a), b)
  {
    if b > 0 {
      StepsAdd(count, m, a, b - 1);
    }
  }

  /** Until the last image, k steps forward from m reach m + k. */
  lemma {:induction false} StepsClimb(count: nat, m: int, k: nat)
    requires 0 <= m < count && m + k < count
    ensures Steps(count, m, k) == m + k
  {
    if k > 0 {
      StepsClimb(count, m, k - 1);
    }
  }

  /** count steps forward bring every image back to the middle. */
  lemma FullCycle(count: nat, m: int)
    requires 0 <= m < count
    ensures Steps(count, m, count) == m
  {
    var up := count - 1 - m;
    StepsAdd(count, m, up, m + 1);
    StepsClimb(count, m, up);
    StepsAdd(count, count - 1, 1, m);
    StepsClimb(count, 0, m);
  }

  class ImageSlider2 {
    /** The number of images, imageArray.length. */
    const count: nat
    var midImage: int
    var rightImage: int
    var leftImage: int

    ghost predicate Valid()
      reads this
    {
      count >= 1 && 0 <= midImage < count
    }

    /** The neighbours the effect keeps: the images after and before the
        middle one. */
    ghost predicate NeighboursSynced()
      requires Valid()
      reads this
    {
      rightImage == Next(count, midImage) && leftImage == Prev(count, midImage)
    }

    /** The initial state: the first image in the middle, the second on the
        right and the last on the left, which is already what the effect
        would set when there are two images or more. */
    constructor (count: nat)
      requires count >= 1
      ensures this.count == count && Valid()
      ensures midImage == 0 && rightImage == 1 && leftImage == count - 1
      ensures count >= 2 ==> NeighboursSynced()
    {
      this.count := count;
      midImage := 0;
      rightImage := 1;
      leftImage := count - 1;
    }

    /** increment: the middle image steps forward, the last wrapping to the
        first. */
    method Increment()
      requires Valid()
      modifies this`midImage
      ensures Valid()
      ensures midImage == Next(count, old(midImage))
    {
      if midImage == count - 1 {
        midImage := 0;
      } else {
        midImage := midImage + 1;
      }
    }

    /** decrement: the middle image steps backward, the first wrapping to the
        last. */
    method Decrement()
      requires Valid()
      modifies this`midImage
      ensures Valid()
      ensures midImage == Prev(count, old(midImage))
    {
      if midImage == 0 {
        midImage := count - 1;
      } else {
        midImage := midImage - 1;
      }
    }

    /** The effect that runs after every change of the middle image. With two
        images or more it sets both neighbours; with a single image its first
        branch points the right neighbour at 1, past the only image. */
    method SyncNeighbours()
      requires Valid()
      modifies this`rightImage, this`leftImage
      ensures Valid()
      ensures count >= 2 ==> NeighboursSynced()
      ensures count >= 2 ==> 0 <= leftImage < count && 0 <= rightImage < count
      ensures count == 1 ==> rightImage == 1 && leftImage == 0
    {
      if midImage == 0 {
        leftImage := count - 1;
        rightImage := 1;
      } else if midImage == count - 1 {
        rightImage := 0;
        leftImage := midImage - 1;
      } else {
        rightImage := midImage + 1;
        leftImage := midImage - 1;
      }
    }

    /** A click on the right image: increment, then the effect. The image
        that was on the right moves to the middle and the old middle image
        becomes the left neighbour. */
    method ClickRight()
      requires Valid() && count >= 2 && NeighboursSynced()
      modifies this`midImage, this`rightImage, this`leftImage
      ensures Valid() && NeighboursSynced()
      ensures midImage == old(rightImage) && leftImage == old(midImage)
    {
      Increment();
      SyncNeighbours();
      PrevUndoesNext(count, old(midImage));
    }

    /** A click on the left image: decrement, then the effect. The image that
        was on the left moves to the middle and the old middle image becomes
        the right neighbour. */
    method ClickLeft()
      requires Valid() && count >= 2 && NeighboursSynced()
      modifies this`midImage, this`rightImage, this`leftImage
      ensures Valid() && NeighboursSynced()
      ensures midImage == old(leftImage) && rightImage == old(midImage)
    {
      Decrement();
      SyncNeighbours();
      NextUndoesPrev(count, old(midImage));
    }
  }
}
