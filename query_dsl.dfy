/**
 * The requests the engine hands to the Elasticsearch client, as typed
 * values instead of nested PHP arrays.
 */
module QueryDsl {
  import opened Php

  /** The connection handle injected into the engine; only its identity matters. */
  datatype Client = Client(handle: nat)

  /**
   * A clause of the `bool.must` list:
   * `['query_string' => ['query' => q]]`, `['terms' => [field => values]]`
   * or `['match_phrase' => [field => value]]`.
   */
  datatype Clause =
    | QueryString(query: string)
    | Terms(field: string, values: Value)
    | MatchPhrase(field: string, value: Value)

  /** One element of the `sort` list: the one-key array `[column => direction]`. */
  datatype SortEntry = SortEntry(column: string, direction: string)

  /**
   * The `body` of a search request: `query.bool.must`, then the optional
   * `sort`, `from` and `size` keys (None when the key is absent).
   */
  datatype SearchBody = SearchBody(
    must: seq<Clause>,
    sort: Option<seq<SortEntry>>,
    from: Option<Value>,
    size: Option<Value>)

  /** `['index' => ..., 'type' => ..., 'body' => ...]` */
  datatype SearchParams = SearchParams(index: string, typeName: string, body: SearchBody)

  /**
   * The `$options` array of `performSearch`: the `numericFilters`, `from`
   * and `size` keys, each None when absent.
   */
  datatype SearchOptions = SearchOptions(
    numericFilters: Option<seq<Clause>>,
    from: Option<Value>,
    size: Option<Value>)

  /**
   * What a search does with the request it built: send it to the client, or
   * hand the client, the query string and the request to the builder's
   * callback.
   */
  datatype SearchCall =
    | ClientSearch(params: SearchParams)
    | Callback(client: Client, query: string, params: SearchParams)

  /** `['delete' => ['_id' => ..., '_index' => ..., '_type' => ...]]` */
  datatype BulkAction = DeleteAction(id: Value, index: string, typeName: string)

  /** `['body' => [...actions]]` as passed to `bulk`. */
  datatype BulkRequest = BulkRequest(body: seq<BulkAction>)

  /** The exceptions the engine raises itself. */
  datatype EngineError =
    | BulkUpdateError(response: map<string, Value>)
    | NotImplemented

  /** A call that returns normally (Pass) or throws (Fail). */
  datatype Outcome = Pass | Fail(error: EngineError)
}
