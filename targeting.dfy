/** The nearest-tagged-collider search that both EnemyUnit.UpdateTarget and
    BugFollowPlayer.UpdateTarget run over the result of an overlap query: a
    running minimum that starts at the detection radius and is replaced only
    by a strictly smaller distance. */
module Targeting {
  import opened Scene

  /** The distance the running minimum holds once `best` is chosen: the
      radius while nothing is chosen. */
  function BestDistance(hits: seq<Hit>, best: Option<nat>, radius: real): real {
    match best
    case None => radius
    case Some(k) => if k < |hits| then hits[k].distance else radius
  }

  /** The index the search loop has chosen after visiting all of `hits`. */
  function Nearest(hits: seq<Hit>, tag: string, radius: real): (r: Option<nat>)
    ensures r.Some? ==> r.value < |hits|
    decreases |hits|
  {
    if hits == [] then None
    else
      var best := Nearest(hits[..|hits| - 1], tag, radius);
      var last := hits[|hits| - 1];
      if last.collider.tag == tag && last.distance < BestDistance(hits, best, radius)
      then Some(|hits| - 1)
      else best
  }

  /** Hit k is the nearest collider with the tag, strictly inside the radius,
      and the first of those at its distance. */
  predicate IsNearest(hits: seq<Hit>, tag: string, radius: real, k: nat) {
    && k < |hits|
    && hits[k].collider.tag == tag
    && hits[k].distance < radius
    && (forall j :: 0 <= j < k && hits[j].collider.tag == tag ==> hits[k].distance < hits[j].distance)
    && (forall j :: k < j < |hits| && hits[j].collider.tag == tag ==> hits[k].distance <= hits[j].distance)
  }

  /** No collider with the tag lies strictly inside the radius. */
  predicate NoneInRange(hits: seq<Hit>, tag: string, radius: real) {
    forall j :: 0 <= j < |hits| && hits[j].collider.tag == tag ==> radius <= hits[j].distance
  }

  /** The search finds the first strictly nearest tagged hit inside the
      radius, and finds nothing exactly when no tagged hit is inside it. */
  lemma {:induction false} NearestSpec(hits: seq<Hit>, tag: string, radius: real)
    ensures Nearest(hits, tag, radius).None? ==> NoneInRange(hits, tag, radius)
    ensures Nearest(hits, tag, radius).Some? ==> IsNearest(hits, tag, radius, Nearest(hits, tag, radius).value)
    decreases |hits|
  {
    if hits != [] {
      var n := |hits| - 1;
      var prefix := hits[..n];
      NearestSpec(prefix, tag, radius);
      var best := Nearest(prefix, tag, radius);
      assert forall j :: 0 <= j < n ==> prefix[j] == hits[j];
      if best.Some? {
        assert BestDistance(hits, best, radius) == hits[best.value].distance;
      }
    }
  }

  /** The characterisation is exact: whatever satisfies it is what the
      search returns. */
  lemma NearestUnique(hits: seq<Hit>, tag: string, radius: real, k: nat)
    ensures IsNearest(hits, tag, radius, k) <==> Nearest(hits, tag, radius) == Some(k)
  {
    NearestSpec(hits, tag, radius);
  }

  /** The search finds nothing exactly when no tagged hit is strictly inside the radius. */
  lemma NoneInRangeExact(hits: seq<Hit>, tag: string, radius: real)
    ensures NoneInRange(hits, tag, radius) <==> Nearest(hits, tag, radius) == None
  {
    NearestSpec(hits, tag, radius);
  }

  /** The foreach loop of UpdateTarget: visit every hit, keep the first one
      with the tag whose distance is strictly below the best so far. */
  method FindNearest(hits: seq<Hit>, tag: string, radius: real) returns (nearest: Option<nat>)
    ensures nearest == Nearest(hits, tag, radius)
    ensures nearest.None? ==> NoneInRange(hits, tag, radius)
    ensures nearest.Some? ==> IsNearest(hits, tag, radius, nearest.value)
  {
    nearest := None;
    var nearestDistance := radius;
    for i := 0 to |hits|
      invariant nearest == Nearest(hits[..i], tag, radius)
      invariant nearestDistance == BestDistance(hits[..i], nearest, radius)
    {
      assert hits[..i + 1][..i] == hits[..i];
      if hits[i].collider.tag == tag && hits[i].distance < nearestDistance {
        nearestDistance := hits[i].distance;
        nearest := Some(i);
      }
    }
    assert hits[..|hits|] == hits;
    NearestSpec(hits, tag, radius);
  }
}
