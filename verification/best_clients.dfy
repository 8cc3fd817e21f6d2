/** The best-clients report page: the chart rows built from the report. */
module BestClients {
  import opened JsValues
  import Reports

  /** One entry of `getBestClients`: the client list and its total. */
  datatype ClientEntry = ClientEntry(client: seq<Record>, total: Val)

  /** The loop that fills `clientsChart[index]` from the report. Row `i`
      comes from entry `i`: the rows keep the report's order. */
  method ClientsChart(report: seq<ClientEntry>) returns (chart: seq<Record>)
    ensures |chart| == |report|
    ensures forall i :: 0 <= i < |report| ==> "total" in chart[i] && chart[i]["total"] == report[i].total
    ensures forall i :: 0 <= i < |report| && |report[i].client| == 0 ==> chart[i].Keys == {"total"}
    ensures forall i :: 0 <= i < |report| && |report[i].client| > 0 ==>
              chart[i].Keys == report[i].client[0].Keys + {"total"} &&
              forall k :: k in report[i].client[0] && k != "total" ==> chart[i][k] == report[i].client[0][k]
  {
    chart := [];
    var index := 0;
    while index < |report|
      invariant 0 <= index <= |report|
      invariant |chart| == index
      invariant forall i :: 0 <= i < index ==> chart[i] == Reports.FlattenEntry(report[i].client, report[i].total)
    {
      chart := chart + [Reports.FlattenEntry(report[index].client, report[index].total)];
      index := index + 1;
    }
  }
}
