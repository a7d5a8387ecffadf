/** Runs of a state machine, for the machines of this project. */
module Runs {
  /** A sequence of worlds from an initial one, each the step of the one before it by the event between them. */
  ghost predicate IsRunOf<W(!new), E(!new)>(initial: W -> bool, next: (W, E, W) -> bool, worlds: seq<W>, events: seq<E>) {
    && |worlds| == |events| + 1
    && initial(worlds[0])
    && forall i :: 0 <= i < |events| ==> next(worlds[i], events[i], worlds[i + 1])
  }

  /** What holds initially and is kept by every step holds in every world of every run. */
  lemma {:induction false} InvariantHolds<W(!new), E(!new)>(initial: W -> bool, next: (W, E, W) -> bool, inv: W -> bool,
                                                          worlds: seq<W>, events: seq<E>, i: nat)
    requires IsRunOf(initial, next, worlds, events) && i < |worlds|
    requires forall w :: initial(w) ==> inv(w)
    requires forall w, e, w' :: inv(w) && next(w, e, w') ==> inv(w')
    ensures inv(worlds[i])
  {
    if i > 0 {
      InvariantHolds(initial, next, inv, worlds, events, i - 1);
      assert next(worlds[i - 1], events[i - 1], worlds[i]);
    }
  }

  /** A relation that holds of a world to itself, and that every step carries on, holds from earlier to later worlds. */
  lemma {:induction false} HistoryHolds<W(!new), E(!new)>(initial: W -> bool, next: (W, E, W) -> bool, rel: (W, W) -> bool,
                                                        worlds: seq<W>, events: seq<E>, i: nat, j: nat)
    requires IsRunOf(initial, next, worlds, events) && i <= j < |worlds|
    requires forall w :: rel(w, w)
    requires forall w0, w, e, w' :: rel(w0, w) && next(w, e, w') ==> rel(w0, w')
    ensures rel(worlds[i], worlds[j])
  {
    if i < j {
      HistoryHolds(initial, next, rel, worlds, events, i, j - 1);
      assert next(worlds[j - 1], events[j - 1], worlds[j]);
    }
  }

  /** What holds at the start of a run and goes on at each of its events holds at every point of it. */
  lemma {:induction false} HoldsAlong(holds: nat -> bool, n: nat, i: nat)
    requires holds(0) && i <= n
    requires forall k: nat :: k < n && holds(k) ==> holds(k + 1)
    ensures holds(i)
  {
    if i > 0 {
      HoldsAlong(holds, n, i - 1);
    }
  }
}
