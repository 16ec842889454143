/** `setupGallery`: a carousel of n >= 2 slides moved by the left and right
    buttons and by horizontal swipes. */
module Gallery {
  import opened Options

  /** A swipe shorter than this many pixels is ignored. */
  const SwipeThreshold := 40

  /** The left button, `(idx - 1 + n) % n`: one slide back, wrapping to the
      last slide from the first. */
  function Prev(i: nat, n: nat): (r: nat)
    requires i < n
    ensures r < n
    ensures i > 0 ==> r == i - 1
    ensures i == 0 ==> r == n - 1
  {
    (i - 1 + n) % n
  }

  /** The right button, `(idx + 1) % n`: one slide on, wrapping to the first
      slide from the last. */
  function Next(i: nat, n: nat): (r: nat)
    requires i < n
    ensures r < n
    ensures i < n - 1 ==> r == i + 1
    ensures i == n - 1 ==> r == 0
  {
    (i + 1) % n
  }

  lemma PrevNextInverse(i: nat, n: nat)
    requires i < n
    ensures Next(Prev(i, n), n) == i
    ensures Prev(Next(i, n), n) == i
  {
  }

  /** The slide after a swipe of `dx` pixels: short swipes change nothing,
      a leftward swipe moves on, a rightward one moves back. */
  function Swipe(i: nat, n: nat, dx: int): (r: nat)
    requires i < n
    ensures r < n
    ensures -SwipeThreshold < dx < SwipeThreshold ==> r == i
    ensures dx <= -SwipeThreshold ==> r == Next(i, n)
    ensures dx >= SwipeThreshold ==> r == Prev(i, n)
  {
    if (if dx < 0 then -dx else dx) < SwipeThreshold then i
    else if dx < 0 then Next(i, n)
    else Prev(i, n)
  }

  /** The state `setupGallery` keeps for one carousel. */
  class Carousel {
    const n: nat
    var idx: nat
    var startX: Option<int>

    ghost predicate Valid()
      reads this
    {
      n >= 2 && idx < n
    }

    constructor (n: nat)
      requires n >= 2
      ensures Valid() && this.n == n && idx == 0 && startX == None
    {
      this.n := n;
      idx := 0;
      startX := None;
    }

    /** `setupGallery` with `slides` images: nothing is set up for fewer
        than two. */
    static method Setup(slides: nat) returns (g: Carousel?)
      ensures g == null <==> slides < 2
      ensures g != null ==> fresh(g) && g.Valid() && g.n == slides && g.idx == 0 && g.startX == None
    {
      if slides < 2 {
        return null;
      }
      g := new Carousel(slides);
    }

    method ClickLeft()
      requires Valid()
      modifies this
      ensures Valid() && idx == Prev(old(idx), n) && startX == old(startX)
    {
      idx := Prev(idx, n);
    }

    method ClickRight()
      requires Valid()
      modifies this
      ensures Valid() && idx == Next(old(idx), n) && startX == old(startX)
    {
      idx := Next(idx, n);
    }

    method PointerDown(x: int)
      requires Valid()
      modifies this
      ensures Valid() && idx == old(idx) && startX == Some(x)
    {
      startX := Some(x);
    }

    /** Pointer released at `x`: without a recorded start nothing happens;
        otherwise the start is forgotten and the swipe applied. */
    method PointerUp(x: int)
      requires Valid()
      modifies this
      ensures Valid() && startX == None
      ensures old(startX) == None ==> idx == old(idx)
      ensures old(startX).Some? ==> idx == Swipe(old(idx), n, x - old(startX).value)
    {
      if startX == None {
        return;
      }
      var dx := x - startX.value;
      startX := None;
      idx := Swipe(idx, n, dx);
    }
  }
}
