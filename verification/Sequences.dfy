/** How one list is taken from another. */
module Sequences {

  /** Places in a list of length `n`, one after the other. */
  ghost predicate Rising(places: seq<nat>, n: nat) {
    && (forall k :: 0 <= k < |places| ==> places[k] < n)
    && (forall k, l :: 0 <= k < l < |places| ==> places[k] < places[l])
  }

  /** `to` holds the elements of `from` at some places, in their order. */
  ghost predicate Picks<T>(places: seq<nat>, from: seq<T>, to: seq<T>) {
    Rising(places, |from|) && |places| == |to| && forall k :: 0 <= k < |to| ==> to[k] == from[places[k]]
  }

  lemma Regroup<T>(a: seq<T>, b: seq<T>, c: seq<T>)
    ensures (a + b) + c == a + (b + c)
  {
  }

  lemma RisingGrows(places: seq<nat>, n: nat)
    requires Rising(places, n)
    ensures Rising(places, n + 1) && Rising(places + [n], n + 1)
  {
  }

  lemma PicksGrow<T>(places: seq<nat>, from: seq<T>, to: seq<T>, last: T)
    requires Picks(places, from, to)
    ensures Picks(places, from + [last], to) && Picks(places + [|from|], from + [last], to + [last])
  {
    RisingGrows(places, |from|);
  }
}
