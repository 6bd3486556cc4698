/** The wrapping comparison of queue indices (archive/other_src/concurrentqueue.h:476-488)
    on 64-bit unsigned integers, related to the unbounded indices that the other modules use. */
module Circular {

  const WIDTH: int := 0x1_0000_0000_0000_0000
  const HALF: int := 0x8000_0000_0000_0000

  function Wrap(x: int): (w: int)
    ensures 0 <= w < WIDTH
  {
    x % WIDTH
  }

  /** static_cast<T>(a - b) > (1 << 63). */
  predicate CircularLessThan(a: int, b: int) {
    Wrap(a - b) > HALF
  }

  /** On indices at most half the width apart, the wrapped comparison is the comparison of
      the unbounded indices, except that an index exactly half the width behind is not
      reported as smaller. */
  lemma AgreesWithOrder(x: int, y: int)
    requires -HALF <= x - y <= HALF
    ensures CircularLessThan(Wrap(x), Wrap(y)) <==> x < y && y - x != HALF
  {
    WrapDifference(x, y);
  }

  /** An index behind by less than the width is seen to be behind exactly up to half of it. */
  lemma BehindByLess(x: int, y: int)
    requires 0 < y - x < WIDTH
    ensures CircularLessThan(Wrap(x), Wrap(y)) <==> y - x < HALF
  {
    WrapDifference(x, y);
    assert x - y == -1 * WIDTH + (WIDTH - (y - x));
  }

  lemma WrapDifference(x: int, y: int)
    ensures Wrap(Wrap(x) - Wrap(y)) == Wrap(x - y)
  {
    var qx, qy := x / WIDTH, y / WIDTH;
    var d := Wrap(x) - Wrap(y);
    assert x - y == (qx - qy) * WIDTH + d;
  }

  /** The distance of two unbounded indices survives wrapping while it fits the width. */
  lemma DistanceSurvives(head: int, tail: int)
    requires 0 <= tail - head < WIDTH
    ensures Wrap(Wrap(tail) - Wrap(head)) == tail - head
  {
    WrapDifference(tail, head);
  }
}
