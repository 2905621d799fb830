/**
 * The engine object: it holds the client handle and builds the bulk and
 * search requests it sends through it. The client calls themselves are not
 * modelled: a search returns the call it makes (to the client or to the
 * builder's callback), a delete returns the bulk request, and an update
 * receives the reply of its bulk request.
 */
module Engine {
  import opened Php
  import opened Scout
  import opened QueryDsl
  import opened Translate

  /** The clause every search starts with: the query wrapped in `*` wildcards. */
  function WildcardQuery(query: string): (c: Clause)
    ensures c.QueryString? && |c.query| == |query| + 2
    ensures c.query[0] == '*' && c.query[|c.query| - 1] == '*'
    ensures c.query[1..|c.query| - 1] == query
  {
    QueryString("*" + query + "*")
  }

  class ElasticsearchEngine {
    /** The Elasticsearch client the engine sends its requests through. */
    var elasticsearch: Client

    constructor (elasticsearch: Client)
      ensures this.elasticsearch == elasticsearch
    {
      this.elasticsearch := elasticsearch;
    }

    /**
     * The error check of `update` on the reply of its bulk request: it
     * throws, carrying the whole reply, exactly when the reply has an
     * `errors` key holding a truthy value.
     */
    method Update(response: map<string, Value>) returns (outcome: Outcome)
      ensures outcome.Fail? <==> "errors" in response && Truthy(response["errors"])
      ensures outcome.Fail? ==> outcome.error == BulkUpdateError(response)
    {
      if "errors" in response && Truthy(response["errors"]) {
        return Fail(BulkUpdateError(response));
      }
      return Pass;
    }

    /**
     * The bulk request of `delete`: exactly one `delete` action per model,
     * in the order of the models, each naming that model's key, index and
     * type.
     */
    method Delete(models: seq<Model>) returns (request: BulkRequest)
      ensures |request.body| == |models|
      ensures forall i :: 0 <= i < |models| ==>
        request.body[i] == DeleteAction(models[i].key, models[i].searchableAs, models[i].typeName)
    {
      var body: seq<BulkAction> := [];
      for i := 0 to |models|
        invariant |body| == i
        invariant forall k :: 0 <= k < i ==>
          body[k] == DeleteAction(models[k].key, models[k].searchableAs, models[k].typeName)
      {
        var model := models[i];
        body := body + [DeleteAction(model.key, model.searchableAs, model.typeName)];
      }
      request := BulkRequest(body);
    }

    /**
     * `performSearch`: the request always targets the model's index and type
     * and its `must` list opens with the wildcard query, followed by the
     * non-empty `numericFilters` option in order. `sort` is present exactly
     * when the builder has `orderBy` entries; `from` and `size` exactly when
     * the options set them. With a callback the request goes to the callback
     * together with the client and the query; otherwise to the client.
     */
    method PerformSearch(builder: Builder, options: SearchOptions) returns (call: SearchCall)
      ensures call.params.index == builder.model.searchableAs
      ensures call.params.typeName == builder.model.typeName
      ensures |call.params.body.must| >= 1
      ensures call.params.body.must[0] == WildcardQuery(builder.query)
      ensures call.params.body.must[1..] ==
        if options.numericFilters.Some? then options.numericFilters.value else []
      ensures call.params.body.sort.Some? <==> builder.orders != []
      ensures call.params.body.sort == Sort(builder.orders)
      ensures call.params.body.from.Some? <==> IsSet(options.from)
      ensures call.params.body.from.Some? ==> call.params.body.from == options.from
      ensures call.params.body.size.Some? <==> IsSet(options.size)
      ensures call.params.body.size.Some? ==> call.params.body.size == options.size
      ensures call.Callback? <==> builder.hasCallback
      ensures call.Callback? ==> call.client == elasticsearch && call.query == builder.query
    {
      var params := SearchParams(
        builder.model.searchableAs,
        builder.model.typeName,
        SearchBody([WildcardQuery(builder.query)], None, None, None));

      var sort := Sort(builder.orders);
      if sort.Some? && sort.value != [] {
        params := params.(body := params.body.(sort := sort));
      }
      if IsSet(options.from) {
        params := params.(body := params.body.(from := options.from));
      }
      if IsSet(options.size) {
        params := params.(body := params.body.(size := options.size));
      }
      if options.numericFilters.Some? && |options.numericFilters.value| != 0 {
        params := params.(body := params.body.(must := params.body.must + options.numericFilters.value));
      }

      if builder.hasCallback {
        return Callback(elasticsearch, builder.query, params);
      }
      return ClientSearch(params);
    }

    /**
     * `search`: the filters and the limit pass through `array_filter`, so an
     * empty filter list and a falsy limit (null, 0, ...) are dropped. The
     * `must` list is the wildcard query followed by one clause per `where`
     * entry, in order; there is no `from`, and `size` is the limit when it
     * is truthy.
     */
    method Search(builder: Builder) returns (call: SearchCall)
      ensures call.params.index == builder.model.searchableAs
      ensures call.params.typeName == builder.model.typeName
      ensures call.params.body.must == [WildcardQuery(builder.query)] + Filters(builder.wheres)
      ensures |call.params.body.must| == 1 + |builder.wheres|
      ensures Wheres(call.params.body.must[1..]) == Some(builder.wheres)
      ensures call.params.body.sort == Sort(builder.orders)
      ensures call.params.body.from == None
      ensures call.params.body.size.Some? <==> Truthy(builder.limit)
      ensures call.params.body.size.Some? ==> call.params.body.size.value == builder.limit
      ensures call.Callback? <==> builder.hasCallback
      ensures call.Callback? ==> call.client == elasticsearch && call.query == builder.query
    {
      FiltersRoundTrip(builder.wheres);
      var filters := Filters(builder.wheres);
      var options := SearchOptions(
        if |filters| != 0 then Some(filters) else None,
        None,
        FilterSlot(builder.limit));
      call := PerformSearch(builder, options);
    }

    /**
     * `paginate`: as `search`, but always with `from` set to the offset of
     * the page (`page * perPage - perPage`, so page 1 starts at 0) and
     * `size` set to `perPage`.
     */
    method Paginate(builder: Builder, perPage: int, page: int) returns (call: SearchCall)
      ensures call.params.index == builder.model.searchableAs
      ensures call.params.typeName == builder.model.typeName
      ensures call.params.body.must == [WildcardQuery(builder.query)] + Filters(builder.wheres)
      ensures call.params.body.sort == Sort(builder.orders)
      ensures Wheres(call.params.body.must[1..]) == Some(builder.wheres)
      ensures call.params.body.from == Some(Int((page - 1) * perPage))
      ensures page == 1 ==> call.params.body.from == Some(Int(0))
      ensures call.params.body.size == Some(Int(perPage))
      ensures call.Callback? <==> builder.hasCallback
      ensures call.Callback? ==> call.client == elasticsearch && call.query == builder.query
    {
      FiltersRoundTrip(builder.wheres);
      var options := SearchOptions(
        Some(Filters(builder.wheres)),
        Some(Int(page * perPage - perPage)),
        Some(Int(perPage)));
      call := PerformSearch(builder, options);
    }

    /** `createIndex` is not supported: it throws whatever its arguments. */
    method CreateIndex(name: string, options: seq<(string, Value)>) returns (outcome: Outcome)
      ensures outcome == Fail(NotImplemented)
    {
      outcome := Fail(NotImplemented);
    }

    /** `deleteIndex` is not supported: it throws whatever its argument. */
    method DeleteIndex(name: string) returns (outcome: Outcome)
      ensures outcome == Fail(NotImplemented)
    {
      outcome := Fail(NotImplemented);
    }

    /** `lazyMap` is not supported: it throws whatever its arguments. */
    method LazyMap(builder: Builder, results: SearchResponse, model: Model) returns (outcome: Outcome)
      ensures outcome == Fail(NotImplemented)
    {
      outcome := Fail(NotImplemented);
    }
  }
}
