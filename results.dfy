/**
 * Reshaping of a raw search response: the hit ids (`mapIds`), the total
 * (`getTotalCount`) and the join of the hits with the models they name
 * (`map`).
 */
module Results {
  import opened Php
  import opened Scout

  /** `mapIds`: the `_id` of every hit, in engine order. */
  function MapIds(results: SearchResponse): (ids: seq<string>)
    ensures |ids| == |results.hits|
    ensures forall i :: 0 <= i < |ids| ==> ids[i] == results.hits[i].id
  {
    seq(|results.hits|, i requires 0 <= i < |results.hits| => results.hits[i].id)
  }

  /** `getTotalCount`: `hits.total` as the response gives it. */
  function GetTotalCount(results: SearchResponse): Value {
    results.total
  }

  /** No model after position `i` has the scout key of `models[i]`. */
  ghost predicate LastWithKey(models: seq<Model>, i: int)
    requires 0 <= i < |models|
  {
    forall j :: i < j < |models| ==> models[j].scoutKey != models[i].scoutKey
  }

  /**
   * `keyBy(getScoutKey)`: the looked-up models indexed by scout key. The
   * keys are exactly the scout keys of the looked-up models, and each entry
   * is a looked-up model carrying its key.
   */
  function KeyBy(models: seq<Model>): (m: map<string, Model>)
    ensures m.Keys == set x | x in models :: x.scoutKey
    ensures forall k :: k in m ==> m[k].scoutKey == k && m[k] in models
  {
    if models == [] then map[]
    else
      var init, last := models[..|models| - 1], models[|models| - 1];
      assert models == init + [last];
      var m := KeyBy(init)[last.scoutKey := last];
      assert m.Keys == set x | x in models :: x.scoutKey by {
        assert forall x :: x in models <==> x in init || x == last;
      }
      m
  }

  /** Where two looked-up models share a scout key, the later one wins. */
  lemma {:induction false} KeyByLastWins(models: seq<Model>, i: nat)
    requires i < |models| && LastWithKey(models, i)
    ensures models[i].scoutKey in KeyBy(models)
    ensures KeyBy(models)[models[i].scoutKey] == models[i]
  {
    var init := models[..|models| - 1];
    if i < |init| {
      assert models[|models| - 1].scoutKey != models[i].scoutKey;
      assert init[i] == models[i];
      assert LastWithKey(init, i) by {
        forall j | i < j < |init| ensures init[j].scoutKey != init[i].scoutKey {
          assert init[j] == models[j];
        }
      }
      KeyByLastWins(init, i);
    }
  }

  /**
   * Each hit replaced by the model found for its id; hits whose id was not
   * found are dropped.
   */
  function Resolve(hits: seq<Hit>, keyed: map<string, Model>): (r: seq<Model>)
    ensures |r| <= |hits|
    ensures forall m :: m in r ==> m in keyed.Values
  {
    if hits == [] then []
    else (if hits[0].id in keyed then [keyed[hits[0].id]] else []) + Resolve(hits[1..], keyed)
  }

  /**
   * `map`: an empty collection when `hits.total` is exactly the integer 0;
   * otherwise the hits, in engine order, replaced by the models the lookup
   * returned for their ids, unresolved hits dropped.
   */
  function Map(builder: Builder, results: SearchResponse, lookup: Lookup): (r: seq<Model>)
    ensures results.total == Int(0) ==> r == []
    ensures |r| <= |results.hits|
    ensures forall m :: m in r ==> m in lookup(builder, MapIds(results))
  {
    if results.total == Int(0) then []
    else
      var keyed := KeyBy(lookup(builder, MapIds(results)));
      var r := Resolve(results.hits, keyed);
      assert forall m :: m in r ==> m in lookup(builder, MapIds(results)) by {
        forall m | m in r ensures m in lookup(builder, MapIds(results)) {
          var k :| k in keyed && keyed[k] == m;
        }
      }
      r
  }

  /**
   * `r` is the order-preserving filtered join of `hits` with `keyed`:
   * `positions` lists, in increasing order, exactly the hits whose id is a
   * key of `keyed`, and `r[j]` is the model found for the hit at
   * `positions[j]`.
   */
  ghost predicate OrderedJoin(hits: seq<Hit>, keyed: map<string, Model>, r: seq<Model>, positions: seq<nat>)
  {
    && |positions| == |r|
    && (forall j :: 0 <= j < |positions| ==>
          positions[j] < |hits| && hits[positions[j]].id in keyed && r[j] == keyed[hits[positions[j]].id])
    && Increasing(positions)
    && (forall i :: 0 <= i < |hits| && hits[i].id in keyed ==> i in positions)
  }

  /** Each position is smaller than the next. */
  ghost predicate Increasing(p: seq<nat>) {
    forall j, j' :: 0 <= j < j' < |p| ==> p[j] < p[j']
  }

  /** The positions of the hits whose id is a key of `keyed`, in increasing order. */
  ghost function Positions(hits: seq<Hit>, keyed: map<string, Model>): seq<nat> {
    if hits == [] then []
    else (if hits[0].id in keyed then [0] else []) + Shifted(Positions(hits[1..], keyed))
  }

  /** Every position moved one place to the right. */
  ghost function Shifted(p: seq<nat>): seq<nat> {
    seq(|p|, j requires 0 <= j < |p| => p[j] + 1)
  }

  lemma {:induction false} PositionsResolve(hits: seq<Hit>, keyed: map<string, Model>)
    ensures var p, r := Positions(hits, keyed), Resolve(hits, keyed);
      |p| == |r| &&
      forall j :: 0 <= j < |p| ==>
        p[j] < |hits| && hits[p[j]].id in keyed && r[j] == keyed[hits[p[j]].id]
  {
    if hits != [] {
      var tail := hits[1..];
      PositionsResolve(tail, keyed);
      var p0, r0 := Positions(tail, keyed), Resolve(tail, keyed);
      var offset := if hits[0].id in keyed then 1 else 0;
      var p, r := Positions(hits, keyed), Resolve(hits, keyed);
      forall j | offset <= j < |p|
        ensures p[j] < |hits| && hits[p[j]].id in keyed && r[j] == keyed[hits[p[j]].id]
      {
        assert p[j] == p0[j - offset] + 1;
        assert r[j] == r0[j - offset];
        assert tail[p0[j - offset]] == hits[p[j]];
      }
    }
  }

  lemma {:induction false} PositionsIncrease(hits: seq<Hit>, keyed: map<string, Model>)
    ensures Increasing(Positions(hits, keyed))
  {
    if hits != [] {
      PositionsIncrease(hits[1..], keyed);
      var p0 := Positions(hits[1..], keyed);
      var offset := if hits[0].id in keyed then 1 else 0;
      var p := Positions(hits, keyed);
      assert |p| == offset + |p0|;
      forall j, j' | 0 <= j < j' < |p| ensures p[j] < p[j'] {
        assert p[j'] == p0[j' - offset] + 1;
        if j < offset {
          assert p[j] == 0;
        } else {
          assert p[j] == p0[j - offset] + 1;
          assert p0[j - offset] < p0[j' - offset];
        }
      }
    }
  }

  lemma {:induction false} PositionsComplete(hits: seq<Hit>, keyed: map<string, Model>, i: nat)
    requires i < |hits| && hits[i].id in keyed
    ensures i in Positions(hits, keyed)
  {
    var offset := if hits[0].id in keyed then 1 else 0;
    var p := Positions(hits, keyed);
    if i == 0 {
      assert p[0] == 0;
    } else {
      var tail := hits[1..];
      assert tail[i - 1] == hits[i];
      PositionsComplete(tail, keyed, i - 1);
      var p0 := Positions(tail, keyed);
      var j :| 0 <= j < |p0| && p0[j] == i - 1;
      assert p[j + offset] == i;
    }
  }

  /** `Resolve` is the ordered join of the hits with the keyed models. */
  lemma ResolveIsOrderedJoin(hits: seq<Hit>, keyed: map<string, Model>)
    ensures OrderedJoin(hits, keyed, Resolve(hits, keyed), Positions(hits, keyed))
  {
    PositionsResolve(hits, keyed);
    PositionsIncrease(hits, keyed);
    forall i | 0 <= i < |hits| && hits[i].id in keyed ensures i in Positions(hits, keyed) {
      PositionsComplete(hits, keyed, i);
    }
  }

  /**
   * When the total is not exactly 0, `map` is an order-preserving
   * subsequence of the hits: the models appear in the order of the hits they
   * replace, every hit whose id the lookup resolved contributes its model,
   * and each model's scout key is the id of the hit it replaces.
   */
  lemma MapIsOrderedJoin(builder: Builder, results: SearchResponse, lookup: Lookup)
    requires results.total != Int(0)
    ensures var keyed := KeyBy(lookup(builder, MapIds(results)));
      exists positions :: OrderedJoin(results.hits, keyed, Map(builder, results, lookup), positions)
        && (forall j :: 0 <= j < |positions| ==>
              Map(builder, results, lookup)[j].scoutKey == MapIds(results)[positions[j]])
  {
    var keyed := KeyBy(lookup(builder, MapIds(results)));
    var r := Map(builder, results, lookup);
    ResolveIsOrderedJoin(results.hits, keyed);
    var positions := Positions(results.hits, keyed);
    assert forall j :: 0 <= j < |positions| ==> r[j].scoutKey == MapIds(results)[positions[j]];
  }

  /**
   * On a total of exactly 0, `map` returns an empty collection whatever the
   * lookup would have answered: the lookup plays no part in the result.
   */
  lemma MapIgnoresLookupOnZeroTotal(builder: Builder, results: SearchResponse, f: Lookup, g: Lookup)
    requires GetTotalCount(results) == Int(0)
    ensures Map(builder, results, f) == [] == Map(builder, results, g)
  {
  }

  /** Three hits A, B, C of which the lookup finds A and C: `map` gives [A, C]. */
  lemma MapDropsUnresolvedHit(builder: Builder, a: Model, c: Model)
    requires a.scoutKey == "A" && c.scoutKey == "C"
    ensures var results := SearchResponse(Int(3), [Hit("A"), Hit("B"), Hit("C")]);
      Map(builder, results, (b: Builder, ids: seq<string>) => [a, c]) == [a, c]
  {
    var results := SearchResponse(Int(3), [Hit("A"), Hit("B"), Hit("C")]);
    var lookup := (b: Builder, ids: seq<string>) => [a, c];
    var keyed := KeyBy([a, c]);
    KeyByLastWins([a, c], 0);
    KeyByLastWins([a, c], 1);
    assert keyed.Keys == {"A", "C"};
    var hits := results.hits;
    assert Resolve(hits[2..], keyed) == [c] by {
      assert hits[2..][1..] == [];
    }
    assert Resolve(hits[1..], keyed) == [c] by {
      assert hits[1..][1..] == hits[2..];
    }
    assert Resolve(hits, keyed) == [a, c];
    assert Map(builder, results, lookup) == Resolve(hits, keyed);
  }
}
