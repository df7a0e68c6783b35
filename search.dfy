/**
 * The three search calls `instruments`, `curveList` and `govList`: each replaces
 * a `None` query and a `None` maxResults by its default and sends one request to the
 * `//blp/instruments` service, whose answer becomes a table with fixed columns.
 */
module Search {
  import opened Wrappers
  import CurveList

  datatype Kind = Instruments | Curves | Governments

  const Service: string := "//blp/instruments"

  /** The `maxResults` used when the caller passes None. */
  const DefaultMaxResults: int := 10

  /** The `query` used when the caller passes None. */
  function DefaultQuery(k: Kind): string {
    match k
    case Instruments => "Dhaka"
    case Curves => "SOFR"
    case Governments => "Bangladesh"
  }

  function OperationName(k: Kind): string {
    match k
    case Instruments => "instrumentListRequest"
    case Curves => "curveListRequest"
    case Governments => "govtListRequest"
  }

  /** The column header of the table each call returns. */
  function Columns(k: Kind): (cols: seq<string>)
    ensures k == Curves ==> |cols| == |CurveList.KeyOrder|
    ensures k == Curves ==> forall i :: 0 <= i < 6 ==> cols[i] == CurveList.KeyOrder[i]
    ensures k == Curves ==> CurveList.KeyOrder[6] == "subtype" && cols[6] == "subType"
  {
    match k
    case Instruments => ["Security", "Description"]
    case Curves => ["curve", "description", "country", "currency", "curveid", "type", "subType"]
    case Governments => ["ParseKey", "Name", "Ticker"]
  }

  /** The request a search call sends: the settings `query` and `maxResults` on a fixed operation. */
  datatype SearchRequest = SearchRequest(service: string, operation: string, query: string, maxResults: int)

  /** Default substitution followed by request construction. */
  function BuildRequest(k: Kind, query: Option<string>, maxResults: Option<int>): (req: SearchRequest)
    ensures req.service == Service && req.operation == OperationName(k)
    ensures query.None? ==> req.query == DefaultQuery(k)
    ensures query.Some? ==> req.query == query.value
    ensures maxResults.None? ==> req.maxResults == DefaultMaxResults
    ensures maxResults.Some? ==> req.maxResults == maxResults.value
  {
    var q := if query.None? then DefaultQuery(k) else query.value;
    var m := if maxResults.None? then DefaultMaxResults else maxResults.value;
    SearchRequest(Service, OperationName(k), q, m)
  }

  /** The fixed defaults of the three calls. */
  lemma Defaults()
    ensures BuildRequest(Instruments, None, None).query == "Dhaka"
    ensures BuildRequest(Curves, None, None).query == "SOFR"
    ensures BuildRequest(Governments, None, None).query == "Bangladesh"
    ensures forall k: Kind :: BuildRequest(k, None, None).maxResults == 10
  {
  }

  /**
   * Substitution is idempotent: passing the settings of a built request back in
   * changes nothing, and the two settings are substituted independently.
   */
  lemma SubstitutionIdempotent(k: Kind, query: Option<string>, maxResults: Option<int>)
    ensures var req := BuildRequest(k, query, maxResults);
            BuildRequest(k, Some(req.query), Some(req.maxResults)) == req
    ensures BuildRequest(k, query, maxResults).query == BuildRequest(k, query, None).query
    ensures BuildRequest(k, query, maxResults).maxResults == BuildRequest(k, None, maxResults).maxResults
  {
  }
}
