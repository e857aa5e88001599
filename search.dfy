/**
 * The search endpoint: the same filter is sent to the detail-data endpoint
 * of each of nineteen collections, and the answers that hold documents are
 * merged into one object keyed by collection name.
 *
 * The call to the detail-data endpoint (an HTTP request to the service
 * itself) is a parameter: for a collection and a filter it gives either a
 * failure or the decoded JSON body, as raw text.
 */
module Search {
  import FilterTranslator

  /** The collections searched, in the order the requests are started. */
  const SearchCollections: seq<string> := [
    "sample_bansos", "bankraya_paylater", "bankraya_pinang_flexi", "data_posindo",
    "dekoruma_customer", "dekoruma_transaction", "dukcapil", "fithub",
    "gojek_customer", "portfolio_bnisekuritas", "rupa2_customer",
    "sicepat_customer", "sicepat_lama", "sim_pendaftaran", "sim_produksi",
    "tokopedia_cutomer", "user_posaja", "vehicle", "phone_regis"
  ]

  /**
   * What one request gives: a failure (no slot in the limiter, the request,
   * the transport, reading or decoding the body) or the body's raw JSON text.
   */
  datatype Response = Failed | Body(raw: string)

  /** fetchData: an error, no data (an empty list or null), or the raw documents. */
  datatype FetchResult = FetchError | NoData | Data(raw: string)

  /** The two bodies that mean "nothing found". */
  predicate IsEmptyBody(raw: string) { raw == "[]" || raw == "null" }

  function FetchData(resp: Response): (r: FetchResult)
    ensures r.FetchError? <==> resp.Failed?
    ensures r.NoData? <==> resp.Body? && IsEmptyBody(resp.raw)
    ensures r.Data? ==> resp.Body? && r.raw == resp.raw && !IsEmptyBody(r.raw)
  {
    match resp
    case Failed => FetchError
    case Body(raw) => if IsEmptyBody(raw) then NoData else Data(raw)
  }

  /** Whether a collection's answer is kept in the merged result. */
  predicate Kept(name: string, filter: string, fetch: (string, string) -> Response)
  {
    FetchData(fetch(name, filter)).Data?
  }

  /**
   * The merged result as a reference definition: every searched collection
   * whose answer holds documents, mapped to that answer.
   */
  function Merged(names: seq<string>, filter: string, fetch: (string, string) -> Response): map<string, string>
  {
    map name | name in names && Kept(name, filter, fetch) :: fetch(name, filter).raw
  }

  /**
   * The search handler: each collection's answer is stored under its name
   * when it holds documents and left out when it failed or was empty.
   */
  method SearchAll(filter: string, fetch: (string, string) -> Response) returns (all: map<string, string>)
    ensures all == Merged(SearchCollections, filter, fetch)
  {
    all := map[];
    for i := 0 to |SearchCollections|
      invariant all == Merged(SearchCollections[..i], filter, fetch)
    {
      var name := SearchCollections[i];
      var result := FetchData(fetch(name, filter));
      assert SearchCollections[..i + 1] == SearchCollections[..i] + [name];
      if result.Data? {
        all := all[name := result.raw];
      }
    }
    assert SearchCollections[..|SearchCollections|] == SearchCollections;
  }

  /**
   * The merged result never holds an empty answer, holds every collection
   * whose answer has documents, and holds nothing but searched collections.
   */
  lemma MergedKeepsExactlyData(filter: string, fetch: (string, string) -> Response, name: string)
    ensures var all := Merged(SearchCollections, filter, fetch);
      && (name in all <==> name in SearchCollections && fetch(name, filter).Body? && !IsEmptyBody(fetch(name, filter).raw))
      && (name in all ==> all[name] == fetch(name, filter).raw && !IsEmptyBody(all[name]))
  {
  }

  /**
   * The searched collections are distinct and are exactly the collections
   * the filter translator knows fields for, so no search with a non-empty
   * filter falls back to matching every document.
   */
  lemma SearchedAreSearchable()
    ensures forall i, j :: 0 <= i < j < |SearchCollections| ==> SearchCollections[i] != SearchCollections[j]
    ensures forall name :: name in SearchCollections <==> name in FilterTranslator.SearchableCollections
  {
  }
}
