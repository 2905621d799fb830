# Elasticsearch engine for Laravel Scout, modelled in Dafny

This project models `ElasticsearchEngine`, the adapter that lets Laravel
Scout search through an Elasticsearch cluster. The adapter turns a Scout
query builder into a search request, turns a batch of models into a bulk
delete request, checks the reply of a bulk update, and maps a raw search
response back to models. The Elasticsearch client and the framework stay
outside the model. The model's key, index name, type name and scout key are
fields of a `Model` value. The framework's `getScoutModelsByIds` is a
function parameter (`Lookup`). The client calls are returned as values: a
search returns the call it would make, to the client or to the builder's
callback.

Two details of the code that the model keeps. First, `search` passes the
limit through `array_filter` (src/ElasticsearchEngine.php:95-98), so every
falsy limit (null, 0, "0", false) is dropped, not only a missing one.
Second, `createIndex`, `deleteIndex` and `lazyMap` each throw
`Error('Not implemented')` unconditionally (src/ElasticsearchEngine.php:287,
298, 309); the model returns `NotImplemented` for them.

Modules:

- `Php` (php.dfy): the PHP values the engine inspects, PHP truthiness, `isset` and the `array_filter` slot.
- `Scout` (scout.dfy): the inputs. These are the query builder, the model, the `orderBy` entries and the raw search response.
- `QueryDsl` (query_dsl.dfy): the requests as typed values. These are the `query_string`, `terms` and `match_phrase` clauses, the `sort` entries, the search body and parameters, the bulk `delete` actions, and the engine's errors.
- `Translate` (translate.dfy): `filters` and `sort`, plus the inverse of `filters` and its round trip.
- `Results` (results.dfy): `mapIds`, `getTotalCount`, the `keyBy` of looked-up models and `map`. It also proves that `map` is an order-preserving filtered join of the hits.
- `Engine` (engine.dfy): the `ElasticsearchEngine` class. It holds the client handle. Its methods are `update` (error check), `delete` (a loop that appends one action per model), `performSearch` (built step by step), `search`, `paginate`, and the unsupported `createIndex`, `deleteIndex` and `lazyMap`.

## Model

| member | source | states |
|---|---|---|
| `Php.FilterSlot` | src/ElasticsearchEngine.php:95-98 | `array_filter` keeps an option exactly when its value is truthy, and a kept value is set for `isset` |
| `Translate.Filters` | src/ElasticsearchEngine.php:180-189 | one clause per `where` entry, in input order. An array value gives `terms {field: value}`, any other value gives `match_phrase {field: value}`. No filter clause is a `query_string` |
| `Translate.FiltersRoundTrip` | src/ElasticsearchEngine.php:182-188 | reading the filter clauses back gives exactly the `where` entries, so the translation loses nothing |
| `Translate.SortEntries` | src/ElasticsearchEngine.php:254-256 | one `{column: direction}` entry per `orderBy` entry, same length and order |
| `Translate.Sort` | src/ElasticsearchEngine.php:248-257 | null exactly when there is no `orderBy` entry. Otherwise a non-empty list of `{column: direction}` entries with the same length and order as the orders |
| `Results.MapIds` | src/ElasticsearchEngine.php:197-200 | the `_id` of every hit, with the same length and order as the hits |
| `Results.KeyBy` | src/ElasticsearchEngine.php:219-224 | the keys are exactly the scout keys of the looked-up models. Each entry is a looked-up model whose scout key is its key |
| `Results.KeyByLastWins` | src/ElasticsearchEngine.php:222-224 | when several looked-up models share a scout key, the last one is kept |
| `Results.Resolve` | src/ElasticsearchEngine.php:226-228 | replacing hits with their models and dropping unresolved hits never lengthens the list and yields only looked-up models |
| `Results.Map` | src/ElasticsearchEngine.php:210-229 | a total of exactly integer 0 gives an empty result. Otherwise the result is no longer than the hits and holds only models the lookup returned |
| `Results.ResolveIsOrderedJoin` | src/ElasticsearchEngine.php:226-228 | the resolved list is an order-preserving subsequence of the hits. The positions it takes grow strictly, every hit whose id resolves is included, and each model is the one found for its hit's id |
| `Results.MapIsOrderedJoin` | src/ElasticsearchEngine.php:210-229 | when the total is not exactly 0 (including any non-integer total), `map` is an ordered filtered join of the hits with the lookup result. Each model's scout key is the `mapIds` entry of the hit it replaces |
| `Results.MapIgnoresLookupOnZeroTotal` | src/ElasticsearchEngine.php:210-214 | with `getTotalCount` exactly 0, `map` is empty whatever the lookup would answer |
| `Results.MapDropsUnresolvedHit` | src/ElasticsearchEngine.php:216-228 | hits A, B, C with only A and C found give exactly [A, C]. B's place is skipped, not padded |
| `Engine.WildcardQuery` | src/ElasticsearchEngine.php:137 | the `query_string` clause holds the query with one `*` before and one after |
| `Engine.ElasticsearchEngine.constructor` | src/ElasticsearchEngine.php:25-28 | the engine holds the client it was given |
| `Engine.ElasticsearchEngine.Update` | src/ElasticsearchEngine.php:40-44 | throws exactly when the bulk reply has an `errors` key holding a truthy value. The error carries the whole reply |
| `Engine.ElasticsearchEngine.Delete` | src/ElasticsearchEngine.php:70-85 | exactly one `delete` action per model, in model order. Each action carries that model's key, index name and type name |
| `Engine.ElasticsearchEngine.PerformSearch` | src/ElasticsearchEngine.php:129-172 | the `must` list starts with the wildcard `query_string`, followed by the non-empty `numericFilters` in order. `sort` is present exactly when there are `orderBy` entries. `from` and `size` are present exactly when the options set them. A callback receives the client, the query and the request; without one the request goes to the client |
| `Engine.ElasticsearchEngine.Search` | src/ElasticsearchEngine.php:93-99 | `must` is the wildcard query followed by one clause per `where` entry (length 1 + number of wheres), and the `where` entries can be read back from it. `from` is absent. `size` is the limit exactly when the limit is truthy, so null and 0 are dropped. A callback receives the engine's client and the builder's query |
| `Engine.ElasticsearchEngine.Paginate` | src/ElasticsearchEngine.php:109-115 | same `must` list as `search`. `from` is `page*perPage - perPage` (0 on page 1) and `size` is `perPage`. A callback receives the engine's client and the builder's query |
| `Engine.ElasticsearchEngine.CreateIndex` | src/ElasticsearchEngine.php:285-288 | always throws "not implemented", whatever its arguments |
| `Engine.ElasticsearchEngine.DeleteIndex` | src/ElasticsearchEngine.php:296-299 | always throws "not implemented", whatever its argument |
| `Engine.ElasticsearchEngine.LazyMap` | src/ElasticsearchEngine.php:307-310 | always throws "not implemented", whatever its arguments |

`getTotalCount` (src/ElasticsearchEngine.php:237-240) is the accessor
`Results.GetTotalCount`. `Results.MapIgnoresLookupOnZeroTotal` states what
the engine does with that total.

## Left out

- src/ElasticsearchProvider.php: the service registration and the publishing of the config file are framework plumbing.
- The client calls `bulk`, `search` and `deleteByQuery` are not modelled. `PerformSearch` returns the call it makes, `Delete` returns the bulk request, and `Update` takes the bulk reply as a parameter.
- Update: the bulk request body is not modelled. It is built by a `Bulk` class, and that class is not part of this model. Only the error check on the reply is modelled, and the exception (its pretty-printed JSON message and chained exception) is reduced to an error value that carries the reply.
- Paginate: the `nbPages` entry added to the response (`hits.total / perPage`, src/ElasticsearchEngine.php:117) is not modelled, and neither are its error paths. It is PHP numeric division on the client's reply: it can give a float, it throws `DivisionByZeroError` when `perPage` is 0, and it throws a `TypeError` when `hits.total` is the `{value, relation}` array. The model's `Paginate` returns the search call and never fails.
- Paginate: PHP integers overflow to floats. The model's `page * perPage - perPage` is on unbounded integers.
- The builder's callback is not run. The model records only that the callback receives the client, the query string and the request.
- `flush` is not modelled. It sends a constant `match_all` delete-by-query to the model's index, and there is nothing to prove about it.
- The framework helpers `getKey`, `getScoutKey`, `searchableAs` and `class_basename` are fields of `Model`, and `getScoutModelsByIds` is the `Lookup` parameter.
- PHP array keys: PHP turns the numeric string key "1" into the integer 1. The model compares `_id` and scout keys as strings, on the assumption that both arrive in the same normalised form.
- PHP values: floats and objects are not modelled. A response `hits.total` of the form `{value, relation}` is a `Dict`, which never equals integer 0, so it never takes the early return of `map`.
- Collection `filter()` in `map` drops falsy values. Models are objects and always truthy, so only the null entries of unresolved hits are dropped, and that is what the model does.
- The key order of the request arrays (`query`, then `sort`, `from` and `size` in the order they are assigned) is fixed by the field order of `SearchBody` and is not modelled as data.
