/** A product's row on the products page: the cache rewrite after the product
    is deleted. */
module ProductCard {
  import opened JsValues
  import CacheLists

  /** The delete rewrite of the cached `getProducts` list: exactly
      the products with another id stay, in their original order. The page
      uses the same id filter as the clients page (`ClientCard`); both
      contracts come from `CacheLists.RemoveById` and
      `CacheLists.RemoveByIdKeepsOrder`. */
  function DeleteProductUpdate(cached: seq<Record>, id: Val): (r: seq<Record>)
    ensures forall x :: x in r ==> IdOf(x) != id
    ensures forall x :: x in cached && IdOf(x) != id ==> x in r
    ensures |r| == |CacheLists.KeptIndices(cached, id, 0)|
    ensures forall k :: 0 <= k < |r| ==> r[k] == cached[CacheLists.KeptIndices(cached, id, 0)[k]]
  {
    CacheLists.RemoveByIdKeepsOrder(cached, id, 0);
    assert cached[0..] == cached;
    CacheLists.RemoveById(cached, id)
  }

  /** Deleting an id that is not cached leaves the list as it was. */
  lemma DeleteProductAbsentId(cached: seq<Record>, id: Val)
    requires forall x :: x in cached ==> IdOf(x) != id
    ensures DeleteProductUpdate(cached, id) == cached
  {
    CacheLists.RemoveAbsentId(cached, id);
  }

  /** Deleting twice is deleting once. */
  lemma DeleteProductIdempotent(cached: seq<Record>, id: Val)
    ensures DeleteProductUpdate(DeleteProductUpdate(cached, id), id) == DeleteProductUpdate(cached, id)
  {
    CacheLists.RemoveByIdIdempotent(cached, id);
  }
}
