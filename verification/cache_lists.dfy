/** The two rewrites the pages apply to a cached query result after a
    mutation: `list.filter(x => x.id !== id)` after a delete and
    `[...list, item]` after a create. */
module CacheLists {
  import opened JsValues

  /** `list.filter((current) => current.id !== id)`. */
  function RemoveById(list: seq<Record>, id: Val): (r: seq<Record>)
    ensures |r| <= |list|
    ensures forall x :: x in r ==> x in list && IdOf(x) != id
    ensures forall x :: x in list && IdOf(x) != id ==> x in r
  {
    if |list| == 0 then []
    else if IdOf(list[0]) != id then [list[0]] + RemoveById(list[1..], id)
    else RemoveById(list[1..], id)
  }

  /** The positions `j >= i` of `list` that the filter keeps, in increasing
      order. */
  function KeptIndices(list: seq<Record>, id: Val, i: nat): (ks: seq<nat>)
    requires i <= |list|
    ensures forall k :: 0 <= k < |ks| ==> i <= ks[k] < |list| && IdOf(list[ks[k]]) != id
    ensures forall j :: i <= j < |list| && IdOf(list[j]) != id ==> j in ks
    ensures forall a, b :: 0 <= a < b < |ks| ==> ks[a] < ks[b]
    decreases |list| - i
  {
    if i == |list| then []
    else if IdOf(list[i]) != id then [i] + KeptIndices(list, id, i + 1)
    else KeptIndices(list, id, i + 1)
  }

  /** Order is kept: the filtered suffix `list[i..]` is `list` read at the
      kept positions, an increasing sequence of indices that covers every
      entry with a different id. */
  lemma {:induction false} RemoveByIdKeepsOrder(list: seq<Record>, id: Val, i: nat)
    requires i <= |list|
    ensures |RemoveById(list[i..], id)| == |KeptIndices(list, id, i)|
    ensures forall k :: 0 <= k < |KeptIndices(list, id, i)| ==>
              RemoveById(list[i..], id)[k] == list[KeptIndices(list, id, i)[k]]
    decreases |list| - i
  {
    if i < |list| {
      var s := list[i..];
      assert s[0] == list[i] && s[1..] == list[i + 1..];
      RemoveByIdKeepsOrder(list, id, i + 1);
      var tail := RemoveById(list[i + 1..], id);
      var ks := KeptIndices(list, id, i + 1);
      if IdOf(list[i]) != id {
        assert RemoveById(s, id) == [list[i]] + tail;
        assert KeptIndices(list, id, i) == [i] + ks;
      } else {
        assert RemoveById(s, id) == tail;
        assert KeptIndices(list, id, i) == ks;
      }
    }
  }

  /** Filtering an id nobody carries leaves the list as it was. */
  lemma {:induction false} RemoveAbsentId(list: seq<Record>, id: Val)
    requires forall x :: x in list ==> IdOf(x) != id
    ensures RemoveById(list, id) == list
  {
    if |list| > 0 {
      assert list[0] in list;
      assert forall x :: x in list[1..] ==> x in list;
      RemoveAbsentId(list[1..], id);
      assert list == [list[0]] + list[1..];
    }
  }

  /** The filter is idempotent. */
  lemma RemoveByIdIdempotent(list: seq<Record>, id: Val)
    ensures RemoveById(RemoveById(list, id), id) == RemoveById(list, id)
  {
  }

  /** `[...list, item]`. */
  function Append(list: seq<Record>, item: Record): (r: seq<Record>)
    ensures |r| == |list| + 1
    ensures r[..|list|] == list && r[|list|] == item
  {
    list + [item]
  }

  /** Filtering a just-created entry's id out again undoes the append. */
  lemma {:induction false} RemoveAfterAppend(list: seq<Record>, item: Record)
    ensures RemoveById(Append(list, item), IdOf(item)) == RemoveById(list, IdOf(item))
  {
    if |list| == 0 {
      assert Append(list, item) == [item];
      assert RemoveById([item], IdOf(item)) == RemoveById([item][1..], IdOf(item));
    } else {
      assert Append(list, item)[1..] == Append(list[1..], item);
      RemoveAfterAppend(list[1..], item);
    }
  }

  /** Appending does not deduplicate: the list holds one more entry with the
      item's id than before. */
  lemma {:induction false} AppendCountsDuplicate(list: seq<Record>, item: Record)
    ensures CountId(Append(list, item), IdOf(item)) == CountId(list, IdOf(item)) + 1
  {
    if |list| == 0 {
      assert Append(list, item) == [item];
      assert [item][1..] == [];
    } else {
      assert Append(list, item)[1..] == Append(list[1..], item);
      AppendCountsDuplicate(list[1..], item);
    }
  }

  /** The number of entries of `list` whose id is `id`. */
  function CountId(list: seq<Record>, id: Val): nat
  {
    if |list| == 0 then 0
    else (if IdOf(list[0]) == id then 1 else 0) + CountId(list[1..], id)
  }
}
