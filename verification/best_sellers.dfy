/** The best-sellers report page: the chart rows built from the report. */
module BestSellers {
  import opened JsValues
  import Reports

  /** One entry of `getBestSellers`: the seller list and its total. */
  datatype SellerEntry = SellerEntry(seller: seq<Record>, total: Val)

  /** The loop that fills `sellersChart[index]` from the report. Row `i`
      comes from entry `i`: the rows keep the report's order. */
  method SellersChart(report: seq<SellerEntry>) returns (chart: seq<Record>)
    ensures |chart| == |report|
    ensures forall i :: 0 <= i < |report| ==> "total" in chart[i] && chart[i]["total"] == report[i].total
    ensures forall i :: 0 <= i < |report| && |report[i].seller| == 0 ==> chart[i].Keys == {"total"}
    ensures forall i :: 0 <= i < |report| && |report[i].seller| > 0 ==>
              chart[i].Keys == report[i].seller[0].Keys + {"total"} &&
              forall k :: k in report[i].seller[0] && k != "total" ==> chart[i][k] == report[i].seller[0][k]
  {
    chart := [];
    var index := 0;
    while index < |report|
      invariant 0 <= index <= |report|
      invariant |chart| == index
      invariant forall i :: 0 <= i < index ==> chart[i] == Reports.FlattenEntry(report[i].seller, report[i].total)
    {
      chart := chart + [Reports.FlattenEntry(report[index].seller, report[index].total)];
      index := index + 1;
    }
  }
}
