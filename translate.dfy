/**
 * Translation of the builder's `where` constraints and `orderBy` entries
 * into query-DSL clauses (`filters` and `sort` of the engine).
 */
module Translate {
  import opened Php
  import opened Scout
  import opened QueryDsl

  /** The clause for one `where` entry: `terms` for an array value, else `match_phrase`. */
  function FilterClause(field: string, value: Value): Clause {
    if IsArray(value) then Terms(field, value) else MatchPhrase(field, value)
  }

  /**
   * `filters`: one clause per `where` entry, in the builder's order; no
   * filter clause is ever a `query_string`.
   */
  function Filters(wheres: seq<(string, Value)>): (cs: seq<Clause>)
    ensures |cs| == |wheres|
    ensures forall i :: 0 <= i < |wheres| && IsArray(wheres[i].1) ==>
      cs[i] == Terms(wheres[i].0, wheres[i].1)
    ensures forall i :: 0 <= i < |wheres| && !IsArray(wheres[i].1) ==>
      cs[i] == MatchPhrase(wheres[i].0, wheres[i].1)
    ensures forall c :: c in cs ==> !c.QueryString?
  {
    if wheres == [] then []
    else [FilterClause(wheres[0].0, wheres[0].1)] + Filters(wheres[1..])
  }

  /** The `where` entry a filter clause stands for; a `query_string` is none. */
  function WhereOf(c: Clause): Option<(string, Value)> {
    match c
    case QueryString(_) => None
    case Terms(field, values) => Some((field, values))
    case MatchPhrase(field, value) => Some((field, value))
  }

  /** Reads a clause list back as `where` entries; fails on any `query_string`. */
  function Wheres(cs: seq<Clause>): Option<seq<(string, Value)>> {
    if cs == [] then Some([])
    else match (WhereOf(cs[0]), Wheres(cs[1..]))
      case (Some(w), Some(ws)) => Some([w] + ws)
      case _ => None
  }

  /** The filter clauses lose nothing: each one gives back its field and value. */
  lemma {:induction false} FiltersRoundTrip(wheres: seq<(string, Value)>)
    ensures Wheres(Filters(wheres)) == Some(wheres)
  {
    if wheres != [] {
      var w, rest := wheres[0], wheres[1..];
      var cs := Filters(wheres);
      assert cs == [FilterClause(w.0, w.1)] + Filters(rest);
      assert cs[1..] == Filters(rest);
      FiltersRoundTrip(rest);
      assert WhereOf(cs[0]) == Some(w);
      assert Wheres(cs) == Some([w] + rest);
      assert [w] + rest == wheres;
    }
  }

  /** The `[column => direction]` entries for a list of `orderBy` entries, in order. */
  function SortEntries(orders: seq<Order>): (es: seq<SortEntry>)
    ensures |es| == |orders|
    ensures forall i :: 0 <= i < |orders| ==>
      es[i].column == orders[i].column && es[i].direction == orders[i].direction
  {
    if orders == [] then []
    else [SortEntry(orders[0].column, orders[0].direction)] + SortEntries(orders[1..])
  }

  /**
   * `sort`: null when the builder has no `orderBy` entry, otherwise one
   * `[column => direction]` entry per `orderBy` entry, in order.
   */
  function Sort(orders: seq<Order>): (r: Option<seq<SortEntry>>)
    ensures r.None? <==> orders == []
    ensures r.Some? ==> |r.value| == |orders| && r.value != []
    ensures r.Some? ==> forall i :: 0 <= i < |orders| ==>
      r.value[i].column == orders[i].column && r.value[i].direction == orders[i].direction
  {
    if |orders| == 0 then None else Some(SortEntries(orders))
  }
}
