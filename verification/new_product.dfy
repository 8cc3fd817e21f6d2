/** The new-product page: the cache append after the product is created and
    the mutation input taken from the form. */
module NewProduct {
  import opened JsValues
  import CacheLists

  /** The append to the cached `getProducts` list: the created product goes
      last, behind the old entries, even when its id is already cached. This
      is the clients page's append (`NewClient.AddClientUpdate`); both rest
      on `CacheLists.Append` and `CacheLists.AppendCountsDuplicate`. */
  function AddProductUpdate(cached: seq<Record>, created: Record): (r: seq<Record>)
    ensures |r| == |cached| + 1
    ensures r[..|cached|] == cached && r[|cached|] == created
    ensures CacheLists.CountId(r, IdOf(created)) == CacheLists.CountId(cached, IdOf(created)) + 1
  {
    CacheLists.AppendCountsDuplicate(cached, created);
    CacheLists.Append(cached, created)
  }

  /** `{ name, price, stock }` read from the form values. */
  function ProductInput(values: Record): (input: Record)
    ensures input.Keys == {"name", "price", "stock"}
    ensures forall k :: k in input ==> input[k] == Get(values, k)
  {
    map["name" := Get(values, "name"), "price" := Get(values, "price"), "stock" := Get(values, "stock")]
  }

  /** Deleting the product just created restores the filtered view of the
      old cache. */
  lemma CreateThenDelete(cached: seq<Record>, created: Record)
    ensures CacheLists.RemoveById(AddProductUpdate(cached, created), IdOf(created)) ==
            CacheLists.RemoveById(cached, IdOf(created))
  {
    CacheLists.RemoveAfterAppend(cached, created);
  }

  /** Only name, price and stock reach the mutation: any other form value,
      whatever it holds, leaves the input as it was. */
  lemma ProductInputIgnoresOtherFields(values: Record, key: string, v: Val)
    requires key !in {"name", "price", "stock"}
    ensures ProductInput(values[key := v]) == ProductInput(values)
  {
  }
}
