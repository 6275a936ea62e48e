// include/zoal_atc/transport/bounded_queue.hpp
module BoundedQueue {
  /** Appends value, discarding from the front until at most cap entries are held. */
  method PushBounded<T>(queue: seq<T>, value: T, cap: nat) returns (held: seq<T>, discarded: nat)
    ensures cap == 0 ==> held == queue && discarded == 1
    ensures cap > 0 ==> discarded == (if |queue| >= cap then |queue| + 1 - cap else 0)
    ensures cap > 0 ==> held == queue[discarded..] + [value]
    ensures cap > 0 ==>
              queue[..discarded] + held == queue + [value] && |held| <= (if |queue| < cap then |queue| + 1 else cap)
  {
    if cap == 0 {
      return queue, 1;
    }
    held, discarded := queue, 0;
    while |held| >= cap
      invariant discarded <= |queue| && held == queue[discarded..]
      invariant discarded > 0 ==> |queue| + 1 - discarded >= cap
    {
      held := held[1..];
      discarded := discarded + 1;
    }
    held := held + [value];
  }
}
