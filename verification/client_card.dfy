/** A client's row on the clients page: the cache rewrite after the client
    is deleted. */
module ClientCard {
  import opened JsValues
  import CacheLists

  /** The delete rewrite of the cached `getClientsBySeller` list: exactly
      the clients with another id stay, in their original order. */
  function DeleteClientUpdate(cached: seq<Record>, id: Val): (r: seq<Record>)
    ensures forall x :: x in r ==> IdOf(x) != id
    ensures forall x :: x in cached && IdOf(x) != id ==> x in r
    ensures |r| == |CacheLists.KeptIndices(cached, id, 0)|
    ensures forall k :: 0 <= k < |r| ==> r[k] == cached[CacheLists.KeptIndices(cached, id, 0)[k]]
  {
    CacheLists.RemoveByIdKeepsOrder(cached, id, 0);
    assert cached[0..] == cached;
    CacheLists.RemoveById(cached, id)
  }

  /** Deleting an id that is not cached leaves the list as it was. */
  lemma DeleteClientAbsentId(cached: seq<Record>, id: Val)
    requires forall x :: x in cached ==> IdOf(x) != id
    ensures DeleteClientUpdate(cached, id) == cached
  {
    CacheLists.RemoveAbsentId(cached, id);
  }

  /** Deleting twice is deleting once. */
  lemma DeleteClientIdempotent(cached: seq<Record>, id: Val)
    ensures DeleteClientUpdate(DeleteClientUpdate(cached, id), id) == DeleteClientUpdate(cached, id)
  {
    CacheLists.RemoveByIdIdempotent(cached, id);
  }
}
