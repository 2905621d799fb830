/**
 * What the engine receives from the search framework: the query builder,
 * the models it indexes, and the raw response the cluster returns. The
 * framework's own helpers (`getKey`, `getScoutKey`, `searchableAs`,
 * `class_basename`, `getScoutModelsByIds`) are given as data or as a
 * function parameter.
 */
module Scout {
  import opened Php

  /**
   * An Eloquent model, reduced to what the engine asks of it:
   * `getKey()`, `getScoutKey()` (as the string the engine's `_id` is
   * compared with), `searchableAs()` (the index name) and
   * `class_basename($model)` (the mapping type name).
   */
  datatype Model = Model(key: Value, scoutKey: string, searchableAs: string, typeName: string)

  /** One `orderBy` entry of the builder: `['column' => ..., 'direction' => ...]`. */
  datatype Order = Order(column: string, direction: string)

  /**
   * The search builder: the model being searched, the free-text query, the
   * `where` constraints in insertion order, the `orderBy` entries, the limit
   * (null when none was set) and whether a custom callback was supplied.
   */
  datatype Builder = Builder(
    model: Model,
    query: string,
    wheres: seq<(string, Value)>,
    orders: seq<Order>,
    limit: Value,
    hasCallback: bool)

  /** One element of `hits.hits` in a search response, reduced to its `_id`. */
  datatype Hit = Hit(id: string)

  /** A raw search response: `hits.total` and `hits.hits` in engine order. */
  datatype SearchResponse = SearchResponse(total: Value, hits: seq<Hit>)

  /** `$model->getScoutModelsByIds($builder, $ids)`: the models found for the ids. */
  type Lookup = (Builder, seq<string>) -> seq<Model>
}
