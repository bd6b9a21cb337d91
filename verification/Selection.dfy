/** Some elements of a sequence, picked by their places and left in order. */
module Selection {

  ghost predicate Ascending(places: seq<nat>, n: nat) {
    && (forall k :: 0 <= k < |places| ==> places[k] < n)
    && forall j, k :: 0 <= j < k < |places| ==> places[j] < places[k]
  }

  ghost predicate Picks<T>(s: seq<T>, places: seq<nat>, picked: seq<T>) {
    && Ascending(places, |s|) && |picked| == |places|
    && forall k :: 0 <= k < |picked| ==> picked[k] == s[places[k]]
  }

  /** One more element, left or picked. */
  lemma PicksMore<T>(s: seq<T>, places: seq<nat>, picked: seq<T>, x: T)
    requires Picks(s, places, picked)
    ensures Picks(s + [x], places, picked) && Picks(s + [x], places + [|s|], picked + [x])
    ensures |s| !in places
  {
  }
}
