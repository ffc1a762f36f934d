/** The slideshow of the home page (`ImageViewer`): the index of the image
    shown, advanced by the interval timer unless paused, stepped back by
    the Previous button. One call of `Tick` stands for one firing of the
    interval. */
module ImageViewer {

  /** JavaScript's `%`, which truncates toward zero: the remainder takes
      the sign of the dividend. */
  function JsRem(a: int, n: int): (r: int)
    requires n > 0
    ensures a >= 0 ==> r == a % n
    ensures a < 0 ==> r == -((-a) % n)
  {
    if a >= 0 then a % n else -((-a) % n)
  }

  /** The index after the timer fires: `(prev + 1) % length`. */
  function Next(i: int, n: int): (j: int)
    requires n > 0
  {
    JsRem(i + 1, n)
  }

  /** The index after Previous: `(prev - 1 + length) % length`. */
  function Prev(i: int, n: int): (j: int)
    requires n > 0
  {
    JsRem(i - 1 + n, n)
  }

  lemma StepsStayInRange(i: int, n: int)
    requires 0 <= i < n
    ensures 0 <= Next(i, n) < n && 0 <= Prev(i, n) < n
  {
  }

  lemma {:induction false} MulAtLeast(x: int, n: int)
    requires x >= 1 && n > 0
    ensures x * n >= n
  {
    if x > 1 {
      MulAtLeast(x - 1, n);
      assert x * n == (x - 1) * n + n;
    }
  }

  /** Quotient and remainder are determined by `a == q * n + r, 0 <= r < n`. */
  lemma ModUnique(a: int, n: int, q: int, r: int)
    requires n > 0 && 0 <= r < n && a == q * n + r
    ensures a % n == r
  {
    var q', r' := a / n, a % n;
    assert (q' - q) * n == r - r';
    if q' > q {
      MulAtLeast(q' - q, n);
    } else if q' < q {
      MulAtLeast(q - q', n);
    }
  }

  /** Previous undoes a tick, and a tick undoes Previous. */
  lemma NextPrevInverse(i: int, n: int)
    requires 0 <= i < n
    ensures Prev(Next(i, n), n) == i
    ensures Next(Prev(i, n), n) == i
  {
    if i == n - 1 {
      ModUnique(i + 1, n, 1, 0);
      ModUnique(n - 1, n, 0, n - 1);
    } else {
      ModUnique(i + 1, n, 0, i + 1);
      ModUnique(i + n, n, 1, i);
    }
    if i == 0 {
      ModUnique(n - 1, n, 0, n - 1);
      ModUnique(n, n, 1, 0);
    } else {
      ModUnique(i - 1 + n, n, 1, i - 1);
      ModUnique(i, n, 0, i);
    }
  }

  /** The index after `k` ticks. */
  function Advance(i: int, k: nat, n: int): (j: int)
    requires n > 0
  {
    if k == 0 then i else Next(Advance(i, k - 1, n), n)
  }

  lemma {:induction false} AdvanceIsOffset(i: int, k: nat, n: int)
    requires 0 <= i < n
    ensures Advance(i, k, n) == (i + k) % n
  {
    if k == 0 {
      ModUnique(i, n, 0, i);
    } else {
      AdvanceIsOffset(i, k - 1, n);
      var prev := (i + k - 1) % n;
      assert Advance(i, k, n) == Next(prev, n) == (prev + 1) % n;
      ModSucc(i + k - 1, n);
    }
  }

  lemma ModSucc(a: nat, n: int)
    requires n > 0
    ensures (a % n + 1) % n == (a + 1) % n
  {
    var q, r := a / n, a % n;
    if r == n - 1 {
      ModUnique(a + 1, n, q + 1, 0);
      ModUnique(r + 1, n, 1, 0);
    } else {
      ModUnique(a + 1, n, q, r + 1);
      ModUnique(r + 1, n, 0, r + 1);
    }
  }

  /** After as many ticks as there are images the first one is back. */
  lemma FullCycle(i: int, n: int)
    requires 0 <= i < n
    ensures Advance(i, n, n) == i
  {
    AdvanceIsOffset(i, n, n);
    ModUnique(i + n, n, 1, i);
  }

  class Slideshow {
    const images: seq<string>
    var currentIndex: int
    var isPaused: bool

    ghost predicate Valid()
      reads this
    {
      |images| >= 1 && 0 <= currentIndex < |images|
    }

    constructor (images: seq<string>)
      requires |images| >= 1
      ensures Valid()
      ensures this.images == images && currentIndex == 0 && !isPaused
    {
      this.images := images;
      currentIndex, isPaused := 0, false;
    }

    /** The interval is set only while playing with more than one image;
        when it fires the index moves on, wrapping at the end. */
    method Tick() returns (advanced: bool)
      requires Valid()
      modifies this
      ensures Valid()
      ensures advanced <==> !old(isPaused) && |images| > 1
      ensures currentIndex == if advanced then Next(old(currentIndex), |images|) else old(currentIndex)
      ensures isPaused == old(isPaused)
    {
      advanced := !isPaused && |images| > 1;
      if advanced {
        currentIndex := Next(currentIndex, |images|);
      }
    }

    /** `handlePreviousImage`, paused or not. */
    method Previous()
      requires Valid()
      modifies this
      ensures Valid()
      ensures currentIndex == Prev(old(currentIndex), |images|)
      ensures isPaused == old(isPaused)
    {
      currentIndex := Prev(currentIndex, |images|);
    }

    /** The play/pause button. */
    method TogglePause()
      requires Valid()
      modifies this
      ensures Valid()
      ensures isPaused == !old(isPaused) && currentIndex == old(currentIndex)
    {
      isPaused := !isPaused;
    }

    /** The `n / length` counter shows a position between 1 and the count. */
    function Counter(): (c: int)
      requires Valid()
      reads this
      ensures 1 <= c <= |images|
      ensures c - 1 == currentIndex
    {
      currentIndex + 1
    }

    function CurrentImage(): (src: string)
      requires Valid()
      reads this
      ensures src in images
    {
      images[currentIndex]
    }
  }

  /** Pausing twice restores the state; while paused the timer never moves
      the index. */
  method PauseScenario(s: Slideshow)
    requires s.Valid() && !s.isPaused
    modifies s
  {
    var start := s.currentIndex;
    s.TogglePause();
    var moved := s.Tick();
    assert !moved && s.currentIndex == start;
    s.TogglePause();
    assert !s.isPaused && s.currentIndex == start;
  }
}
