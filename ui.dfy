/** The two pure computations of the page around the game: the hit-test of the
    canvas "play again" button and the screenshot carousel's index stepping. */
module Ui {
  import opened Entities

  datatype Option<T> = None | Some(value: T)

  /** The button endGame paints: 160 x 40, centred horizontally, 30 below the
      middle of the canvas. */
  const ReplayButton: Rect := Rect((CanvasWidth as real) / 2.0 - 80.0, (CanvasHeight as real) / 2.0 + 30.0, 160.0, 40.0)

  /** A click at canvas coordinates (x, y) lands on the "play again" button. */
  predicate OnReplayButton(x: real, y: real) {
    x >= (CanvasWidth as real) / 2.0 - 80.0 && x <= (CanvasWidth as real) / 2.0 + 80.0 &&
    y >= (CanvasHeight as real) / 2.0 + 30.0 && y <= (CanvasHeight as real) / 2.0 + 70.0
  }

  /** The clickable area is the painted button, edges included. */
  lemma ReplayButtonIsPainted(x: real, y: real)
    ensures OnReplayButton(x, y) <==>
              ReplayButton.x <= x <= ReplayButton.x + ReplayButton.w &&
              ReplayButton.y <= y <= ReplayButton.y + ReplayButton.h
  {
  }

  /** The button occupies [150, 310] x [390, 430] on the 460 x 720 canvas. */
  lemma ReplayButtonCorners()
    ensures OnReplayButton(150.0, 390.0) && OnReplayButton(310.0, 430.0)
    ensures !OnReplayButton(149.5, 400.0) && !OnReplayButton(200.0, 430.5)
  {
  }

  /** nextSlide: `(current + 1) % count`. With no slides the expression is NaN
      and showSlide fails on the missing element, so there is no next slide. */
  function NextSlide(current: nat, count: nat): (r: Option<nat>)
    ensures count == 0 <==> r == None
    ensures r.Some? ==> r.value < count
    ensures current + 1 < count ==> r == Some(current + 1)
  {
    if count == 0 then None
    else if current + 1 < count then ModBelow(current + 1, count); Some((current + 1) % count)
    else Some((current + 1) % count)
  }

  /** prevSlide: `(current - 1 + count) % count`. */
  function PrevSlide(current: nat, count: nat): (r: Option<nat>)
    ensures count == 0 <==> r == None
    ensures r.Some? ==> r.value < count
    ensures 0 < current < count ==> r == Some(current - 1)
  {
    if count == 0 then None else Some((current - 1 + count) % count)
  }

  lemma ModBelow(a: int, n: int)
    requires 0 <= a < n
    ensures a % n == a
  {
  }

  lemma ModShift(a: int, n: int)
    requires 0 <= a < n
    ensures (a + n) % n == a
  {
  }

  /** Going back after going forward returns to the slide shown, and so does
      going forward after going back. */
  lemma SlidesInverse(current: nat, count: nat)
    requires current < count
    ensures PrevSlide(NextSlide(current, count).value, count) == Some(current)
    ensures NextSlide(PrevSlide(current, count).value, count) == Some(current)
  {
    if current + 1 < count {
      ModBelow(current + 1, count);
      ModShift(current, count);
    } else {
      ModShift(0, count);
      ModBelow(count - 1, count);
    }
    if current == 0 {
      ModBelow(count - 1, count);
      ModShift(0, count);
    } else {
      ModShift(current - 1, count);
      ModBelow(current, count);
    }
  }

  /** Stepping forward wraps from the last slide to the first, and back from
      the first to the last. */
  lemma SlidesWrap(count: nat)
    requires count > 0
    ensures NextSlide(count - 1, count) == Some(0)
    ensures PrevSlide(0, count) == Some(count - 1)
  {
  }
}
