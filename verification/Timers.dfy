/**
 Deadlines: the loops that find a free slot in an ordered collection of times in microseconds.
 */
module Timers {

  const MAX_TRIES: nat := 1000

  /** The smallest time not before d that is not taken. */
  function LeastFree(taken: set<nat>, d: nat): (f: nat)
    ensures d <= f <= d + |taken| && f !in taken
    ensures forall k :: d <= k < f ==> k in taken
    decreases |taken|
  {
    if d !in taken then d
    else
      var f := LeastFree(taken - {d}, d + 1);
      assert forall k {:trigger k in taken} :: d < k < f ==> k in taken - {d};
      f
  }
}
