/**
  The scroll tracker behind the header. Positions are `window.scrollY`, a real number of
  pixels that may be fractional on zoomed pages. On every scroll event the tracker records
  whether the page is near the top, switches the direction to down only on a move down past the
  first 80 pixels and to up on any move up, and remembers the position for the next event.
 */
module ScrollDirection {

  datatype Direction = Up | Down

  /** How the direction changes on a move from `last` to `current`. */
  function NextDirection(direction: Direction, last: real, current: real): (d: Direction)
    ensures d == Down <==> (current > last && current > 80.0) || (direction == Down && current >= last)
    ensures current < last ==> d == Up
  {
    if current > last && current > 80.0 then Down
    else if current < last then Up
    else direction
  }

  class ScrollTracker {
    var direction: Direction
    var atTop: bool
    var lastScroll: real

    /** What every event leaves behind: `atTop` describes the last position, and the
        direction is down only after a position past 80. */
    ghost predicate Valid()
      reads this
    {
      && atTop == (lastScroll < 10.0)
      && (direction == Down ==> lastScroll > 80.0)
    }

    /** Before any event: up, at the top, at position 0. */
    constructor ()
      ensures Valid()
      ensures direction == Up && atTop && lastScroll == 0.0
    {
      direction := Up;
      atTop := true;
      lastScroll := 0.0;
    }

    /** `handleScroll` for an event at position `current`. */
    method HandleScroll(current: real)
      requires Valid()
      modifies this
      ensures Valid()
      ensures atTop == (current < 10.0)
      ensures direction == NextDirection(old(direction), old(lastScroll), current)
      ensures lastScroll == current
    {
      atTop := current < 10.0;
      if current > lastScroll && current > 80.0 {
        direction := Down;
      } else if current < lastScroll {
        direction := Up;
      }
      lastScroll := current;
    }
  }

  /** The direction is never down at a position of 80 or less. */
  lemma NeverDownNearTop(direction: Direction, last: real, current: real)
    requires direction == Down ==> last > 80.0
    requires current <= 80.0
    ensures NextDirection(direction, last, current) == Up
  {
  }

  /** Holding still, or moving down while still within the first 80 pixels, keeps the direction. */
  lemma SmallMovesKeepDirection(direction: Direction, last: real, current: real)
    requires current == last || (current > last && current <= 80.0)
    ensures NextDirection(direction, last, current) == direction
  {
  }

  /** A scroll down past 80 followed by a scroll back up always ends pointing up, at the
      position of the second event. */
  method DownThenUp(first: real, second: real) returns (t: ScrollTracker)
    requires first > 80.0 && second < first
    ensures t.Valid()
    ensures t.direction == Up && t.lastScroll == second && t.atTop == (second < 10.0)
  {
    t := new ScrollTracker();
    t.HandleScroll(first);
    assert t.direction == Down;
    t.HandleScroll(second);
  }
}
