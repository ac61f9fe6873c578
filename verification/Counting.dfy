/** Counting the actions of a run. */
module Counting {
  function Count<A>(acts: seq<A>, kind: A -> bool): nat {
    if acts == [] then 0 else (if kind(acts[0]) then 1 else 0) + Count(acts[1..], kind)
  }
}
