/** How keys, swipes and mouse drags are classified into at most one
    navigation step. */
module Gestures {
  import opened Wrappers
  import opened Carousel

  /** The navigation a user input asks for. */
  datatype Nav = Prev | Next | Stay

  /** The change of slide index a navigation asks for. */
  function Delta(m: Nav): (d: int)
    ensures -1 <= d <= 1
    ensures d == 0 <==> m == Stay
  {
    match m
    case Prev => -1
    case Next => 1
    case Stay => 0
  }

  const SwipeThreshold: int := 50
  const DragThreshold: int := 50
  /** A mouse drag counts double its distance. */
  const DragFactor: int := 2

  function Abs(x: int): int
  {
    if x < 0 then -x else x
  }

  /** A touch that started at `startX` and ended at `endX`: moving left by
      more than the threshold asks for the next slide, moving right by more
      than the threshold asks for the previous one; a movement of exactly the
      threshold or less is ignored. */
  function SwipeNav(startX: int, endX: int): (m: Nav)
    ensures m == Next <==> startX - endX > SwipeThreshold
    ensures m == Prev <==> startX - endX < -SwipeThreshold
    ensures m == Stay <==> -SwipeThreshold <= startX - endX <= SwipeThreshold
  {
    var diff := startX - endX;
    if Abs(diff) > SwipeThreshold then
      if diff > 0 then Next else Prev
    else
      Stay
  }

  /** A mouse release at `x` after a press at `startX`: the doubled distance
      to the right past the threshold asks for the previous slide, to the left
      past the threshold for the next one. Without a recorded press the
      distance is not a number and nothing is asked for. */
  function DragNav(startX: Option<int>, x: int): (m: Nav)
    ensures m == Prev <==> startX.Some? && (x - startX.value) * DragFactor > DragThreshold
    ensures m == Next <==> startX.Some? && (x - startX.value) * DragFactor < -DragThreshold
    ensures startX.None? ==> m == Stay
  {
    match startX
    case None => Stay
    case Some(s) =>
      var walk := (x - s) * DragFactor;
      if walk > DragThreshold then Prev
      else if walk < -DragThreshold then Next
      else Stay
  }

  /** A drag is a swipe at double the distance: the same comparison with the
      same threshold, so dragging and swiping the same way navigate alike. */
  lemma DragIsDoubledSwipe(s: int, x: int)
    ensures DragNav(Some(s), x) == SwipeNav(DragFactor * s, DragFactor * x)
  {
  }

  /** The left and right arrow keys ask for the previous and the next slide;
      every other key is ignored. */
  function KeyNav(key: string): (m: Nav)
    ensures m == Prev <==> key == "ArrowLeft"
    ensures m == Next <==> key == "ArrowRight"
  {
    if key == "ArrowLeft" then Prev
    else if key == "ArrowRight" then Next
    else Stay
  }

  /** The screen after a gesture asking for `m`: nothing changes when it asks
      for nothing, and otherwise the carousel moves by one from its slide. */
  function Step(s: Screen, m: Nav, keys: seq<string>): (r: Screen)
    requires |keys| > 0
    ensures m == Stay ==> r == s
    ensures m != Stay ==> Settled(r, |keys|) && r.index == WrapIndex(s.index + Delta(m), |keys|)
  {
    if m == Stay then s else Navigated(s, s.index + Delta(m), keys)
  }

  /** A gesture moves at most one slide round the cycle: from a settled
      screen, "next" adds one modulo the card count, "previous" subtracts one,
      "stay" keeps the screen, and with two or more cards every other gesture
      changes the slide. */
  lemma StepMovesOnce(s: Screen, m: Nav, keys: seq<string>)
    requires |keys| > 0 && Settled(s, |keys|)
    ensures Step(s, m, keys).index == (s.index + Delta(m)) % |keys|
    ensures Settled(Step(s, m, keys), |keys|)
    ensures m == Stay ==> Step(s, m, keys) == s
    ensures |keys| > 1 && m != Stay ==> Step(s, m, keys).index != s.index
  {
    var n := |keys|;
    match m
    case Next => WrapNext(s.index, n);
    case Prev => WrapPrev(s.index, n);
    case Stay => ModUnique(s.index, 0, s.index, n);
  }
}
