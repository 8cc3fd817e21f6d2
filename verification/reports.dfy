/** The flattening both report pages apply to each entry of a "best of"
    report before charting it. */
module Reports {
  import opened JsValues

  /** `{ ...entry.people[0], total: entry.total }`: the first person's fields
      with the entry's total on top; an empty list spreads `undefined`, which
      adds nothing. */
  function FlattenEntry(people: seq<Record>, total: Val): (r: Record)
    ensures "total" in r && r["total"] == total
    ensures |people| == 0 ==> r.Keys == {"total"}
    ensures |people| > 0 ==> r.Keys == people[0].Keys + {"total"}
    ensures |people| > 0 ==> forall k :: k in people[0] && k != "total" ==> r[k] == people[0][k]
  {
    (if |people| > 0 then people[0] else map[]) + map["total" := total]
  }
}
