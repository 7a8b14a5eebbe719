/**
 * Dependency layering of a resource map (executor.py `topological_sort`).
 *
 * The engine extracts, for every resource, the targets of its top-level
 * `{"!ref": id}` property values and hands the resulting map to the `toposort`
 * package. That package is not part of this model; it is specified here by a
 * definition with the same observable behaviour: self-dependencies are
 * ignored, a referenced id that is not itself a key becomes an item without
 * dependencies, each layer is the set of all items whose dependencies are
 * already placed, and when no item can be placed the sort fails.
 */
module Layering {
  import opened Types

  /**
   * The targets of the reference values among a resource's properties. Only the
   * property values themselves are inspected: a reference nested inside an
   * embedded object is not a dependency.
   */
  function References(r: ResourceRepr): (refs: set<string>)
    ensures forall t :: t in refs <==> exists p :: p in r.properties && r.properties[p] == Ref(t)
  {
    var refs := set p | p in r.properties && r.properties[p].Ref? :: r.properties[p].target;
    assert forall p :: p in r.properties && r.properties[p].Ref? ==> r.properties[p].target in refs;
    refs
  }

  /** A reference nested inside an embedded object does not count as a dependency. */
  lemma NestedReferencesIgnored(r: ResourceRepr, p: string)
    requires p in r.properties && r.properties[p].Object?
    requires forall q :: q in r.properties && q != p ==> !r.properties[q].Ref?
    ensures References(r) == {}
  {
  }

  /** Every id that some resource of `g` references. */
  function Targets(g: Graph): (ts: set<string>)
    ensures forall k, t :: k in g && t in References(g[k]) ==> t in ts
    ensures forall t :: t in ts ==> exists k :: k in g && t in References(g[k])
  {
    set k, t | k in g && t in References(g[k]) :: t
  }

  /** Dependencies are closed (every dependency is itself an item) and free of self-loops. */
  predicate WellFormed(deps: map<string, set<string>>)
  {
    forall k :: k in deps ==> deps[k] <= deps.Keys && k !in deps[k]
  }

  /** The dependency map as toposort sees it once it has normalised its input. */
  function Dependencies(g: Graph): (deps: map<string, set<string>>)
    ensures WellFormed(deps)
    ensures deps.Keys == g.Keys + Targets(g)
    ensures forall k :: k in g ==> deps[k] == References(g[k]) - {k}
    ensures forall k :: k in deps && k !in g ==> deps[k] == {}
  {
    var ts := Targets(g);
    map k | k in g.Keys + ts :: if k in g then References(g[k]) - {k} else {}
  }

  function Union(layers: seq<set<string>>): (u: set<string>)
    ensures forall i :: 0 <= i < |layers| ==> layers[i] <= u
  {
    if |layers| == 0 then {} else layers[0] + Union(layers[1..])
  }

  /** The layer that holds a member of the union. */
  lemma {:induction false} LayerOf(layers: seq<set<string>>, x: string) returns (i: nat)
    requires x in Union(layers)
    ensures i < |layers| && x in layers[i]
  {
    if x in layers[0] {
      i := 0;
    } else {
      var j := LayerOf(layers[1..], x);
      i := j + 1;
    }
  }

  /** The union of two runs of layers is the union of their unions. */
  lemma {:induction false} UnionAppend(a: seq<set<string>>, b: seq<set<string>>)
    ensures Union(a + b) == Union(a) + Union(b)
  {
    if |a| == 0 {
      assert a + b == b;
    } else {
      assert (a + b)[1..] == a[1..] + b;
      UnionAppend(a[1..], b);
    }
  }

  /** Extending a prefix of layers by the next layer adds that layer to the union. */
  lemma UnionPrefix(layers: seq<set<string>>, i: nat)
    requires i < |layers|
    ensures Union(layers[..i + 1]) == Union(layers[..i]) + layers[i]
  {
    assert layers[..i + 1] == layers[..i] + [layers[i]];
    UnionAppend(layers[..i], [layers[i]]);
    assert [layers[i]][1..] == [];
  }

  /** No item lies in two layers. */
  predicate Disjoint(layers: seq<set<string>>)
  {
    forall i, j :: 0 <= i < j < |layers| ==> layers[i] !! layers[j]
  }

  /** The layers in reverse order (the `[::-1]` slice). */
  function Reverse(layers: seq<set<string>>): (r: seq<set<string>>)
    ensures |r| == |layers|
    ensures forall i :: 0 <= i < |layers| ==> r[i] == layers[|layers| - 1 - i]
  {
    seq(|layers|, i requires 0 <= i < |layers| => layers[|layers| - 1 - i])
  }

  /** Reversing keeps the layers disjoint and their union unchanged. */
  lemma ReverseLayers(layers: seq<set<string>>)
    requires Disjoint(layers)
    ensures Disjoint(Reverse(layers))
    ensures Union(Reverse(layers)) == Union(layers)
  {
    var r := Reverse(layers);
    var n := |layers|;
    forall i, j | 0 <= i < j < n ensures r[i] !! r[j] {
      assert r[i] == layers[n - 1 - i] && r[j] == layers[n - 1 - j];
    }
    forall x | x in Union(r) ensures x in Union(layers) {
      var i := LayerOf(r, x);
      assert x in layers[n - 1 - i];
    }
    forall x | x in Union(layers) ensures x in Union(r) {
      var i := LayerOf(layers, x);
      assert x in r[n - 1 - i];
    }
  }

  /**
   * `layers` places every item not in `placed` exactly once, in a non-empty
   * layer, and every dependency of an item lies either in `placed` or in a
   * strictly earlier layer.
   */
  predicate IsLayering(deps: map<string, set<string>>, layers: seq<set<string>>, placed: set<string>)
  {
    && (forall i :: 0 <= i < |layers| ==> layers[i] != {})
    && Disjoint(layers)
    && Union(layers) == deps.Keys - placed
    && LayersOrdered(deps, layers)
  }

  /** Every dependency found in some layer lies in a strictly earlier layer than its dependent. */
  predicate LayersOrdered(deps: map<string, set<string>>, layers: seq<set<string>>)
  {
    forall i, j, k, t ::
      (0 <= i < |layers| && 0 <= j < |layers| && k in layers[i] && k in deps && t in deps[k] && t in layers[j])
      ==> j < i
  }

  /** The items that can be placed next: all their dependencies are already placed. */
  function Ready(deps: map<string, set<string>>, placed: set<string>): (ready: set<string>)
    ensures forall k :: k in ready <==> k in deps && k !in placed && deps[k] <= placed
  {
    set k | k in deps.Keys - placed && deps[k] <= placed
  }

  /** A layer disjoint from the union of disjoint layers can be put in front of them. */
  lemma ConsDisjoint(ready: set<string>, rest: seq<set<string>>)
    requires Disjoint(rest) && ready !! Union(rest)
    ensures Disjoint([ready] + rest)
  {
    var layers := [ready] + rest;
    forall i, j | 0 <= i < j < |layers| ensures layers[i] !! layers[j] {
      assert layers[j] == rest[j - 1];
      if i > 0 {
        assert layers[i] == rest[i - 1];
      } else {
        assert layers[j] <= Union(rest);
      }
    }
  }

  /** A layer whose dependencies are all placed can be put in front of an ordered layering of the rest. */
  lemma ConsOrdered(deps: map<string, set<string>>, placed: set<string>, ready: set<string>, rest: seq<set<string>>)
    requires forall k :: k in ready ==> k in deps && deps[k] <= placed
    requires placed !! Union(rest) && placed !! ready
    requires LayersOrdered(deps, rest)
    ensures LayersOrdered(deps, [ready] + rest)
  {
    var layers := [ready] + rest;
    forall i, j, k, t | 0 <= i < |layers| && 0 <= j < |layers| && k in layers[i] && k in deps
        && t in deps[k] && t in layers[j]
      ensures j < i
    {
      if j == 0 {
        assert t in ready;
      } else {
        assert layers[j] == rest[j - 1] && layers[j] <= Union(rest);
      }
      if i > 0 && j > 0 {
        assert layers[i] == rest[i - 1];
      }
    }
  }

  lemma ConsLayer(deps: map<string, set<string>>, placed: set<string>, ready: set<string>, rest: seq<set<string>>)
    requires WellFormed(deps) && placed <= deps.Keys
    requires ready == Ready(deps, placed) && ready != {}
    requires IsLayering(deps, rest, placed + ready)
    ensures IsLayering(deps, [ready] + rest, placed)
  {
    assert ([ready] + rest)[1..] == rest;
    ConsDisjoint(ready, rest);
    ConsOrdered(deps, placed, ready, rest);
  }

  /** Kahn-style frontier elimination, one maximal layer at a time. */
  function Layers(deps: map<string, set<string>>, placed: set<string>): (r: Result<seq<set<string>>>)
    requires WellFormed(deps) && placed <= deps.Keys
    ensures r.Ok? ==> IsLayering(deps, r.value, placed)
    ensures r.Err? ==> r.error == ReferenceCycle
    decreases |deps.Keys - placed|
  {
    if deps.Keys - placed == {} then Ok([])
    else
      var ready := Ready(deps, placed);
      if ready == {} then Err(ReferenceCycle)
      else
        assert deps.Keys - (placed + ready) < deps.Keys - placed;
        match Layers(deps, placed + ready)
        case Err(e) => Err(e)
        case Ok(rest) =>
          ConsLayer(deps, placed, ready, rest);
          Ok([ready] + rest)
  }

  /** `topological_sort(graph)`. */
  function TopologicalSort(g: Graph): (r: Result<seq<set<string>>>)
    ensures r.Ok? ==> IsLayering(Dependencies(g), r.value, {})
    ensures r.Ok? ==> Union(r.value) == g.Keys + Targets(g)
    ensures r.Err? ==> r.error == ReferenceCycle
  {
    Layers(Dependencies(g), {})
  }

  /** Layering reads only the ids and the properties: type tags and statuses play no part. */
  lemma SortReadsOnlyProperties(g1: Graph, g2: Graph)
    requires g1.Keys == g2.Keys
    requires forall k :: k in g1 ==> g1[k].properties == g2[k].properties
    ensures TopologicalSort(g1) == TopologicalSort(g2)
  {
    TargetsReadOnlyProperties(g1, g2);
    assert Dependencies(g1) == Dependencies(g2);
  }

  lemma TargetsReadOnlyProperties(g1: Graph, g2: Graph)
    requires g1.Keys == g2.Keys
    requires forall k :: k in g1 ==> g1[k].properties == g2[k].properties
    ensures forall k :: k in g1 ==> References(g1[k]) == References(g2[k])
    ensures Targets(g1) == Targets(g2)
  {
    forall k | k in g1 ensures References(g1[k]) == References(g2[k]) {
    }
  }

  /**
   * If resource `k` holds a reference to `t` (another id) as one of its property
   * values, then `t` is placed in a strictly earlier layer than `k`.
   */
  lemma ReferenceTargetEarlier(g: Graph, layers: seq<set<string>>, i: nat, k: string, t: string)
    requires TopologicalSort(g) == Ok(layers)
    requires i < |layers| && k in layers[i] && k in g
    requires t in References(g[k]) && t != k
    ensures exists j :: 0 <= j < i && t in layers[j]
  {
    var deps := Dependencies(g);
    assert t in Targets(g);
    var j := LayerOf(layers, t);
    assert t in deps[k];
  }

  /** A set of items each of which depends on another item of the same set. */
  predicate Stuck(deps: map<string, set<string>>, s: set<string>)
  {
    && s != {}
    && s <= deps.Keys
    && forall k :: k in s ==> deps[k] * s != {}
  }

  /** A stuck set among the unplaced items makes the layering fail. */
  lemma {:induction false} StuckFails(deps: map<string, set<string>>, placed: set<string>, s: set<string>)
    requires WellFormed(deps) && placed <= deps.Keys
    requires Stuck(deps, s) && s !! placed
    ensures Layers(deps, placed).Err?
    decreases |deps.Keys - placed|
  {
    var ready := Ready(deps, placed);
    var x :| x in s;
    assert x in deps.Keys - placed;
    LayersStep(deps, placed);
    if ready != {} {
      StuckNeverReady(deps, placed, s);
      StuckFails(deps, placed + ready, s);
    }
  }

  /** One round of the layering: fail when nothing is ready, otherwise place the ready items and go on. */
  lemma LayersStep(deps: map<string, set<string>>, placed: set<string>)
    requires WellFormed(deps) && placed <= deps.Keys && deps.Keys - placed != {}
    ensures Ready(deps, placed) == {} ==> Layers(deps, placed).Err?
    ensures Ready(deps, placed) != {} ==>
      && |deps.Keys - (placed + Ready(deps, placed))| < |deps.Keys - placed|
      && (Layers(deps, placed).Err? <==> Layers(deps, placed + Ready(deps, placed)).Err?)
  {
    var ready := Ready(deps, placed);
    if ready != {} {
      assert deps.Keys - (placed + ready) < deps.Keys - placed;
    }
  }

  /** No member of a stuck set disjoint from the placed items is ready. */
  lemma StuckNeverReady(deps: map<string, set<string>>, placed: set<string>, s: set<string>)
    requires Stuck(deps, s) && s !! placed
    ensures s !! Ready(deps, placed)
  {
    forall k | k in s ensures k !in Ready(deps, placed) {
      var t :| t in deps[k] * s;
    }
  }

  /** When the layering fails, the items left unplaced contain a stuck set. */
  lemma {:induction false} FailureIsStuck(deps: map<string, set<string>>, placed: set<string>) returns (s: set<string>)
    requires WellFormed(deps) && placed <= deps.Keys
    requires Layers(deps, placed).Err?
    ensures Stuck(deps, s) && s !! placed
    decreases |deps.Keys - placed|
  {
    var ready := Ready(deps, placed);
    assert deps.Keys - placed != {};
    LayersStep(deps, placed);
    if ready == {} {
      s := deps.Keys - placed;
      forall k | k in s ensures deps[k] * s != {} {
        assert !(deps[k] <= placed);
        var t :| t in deps[k] && t !in placed;
        assert t in s;
      }
    } else {
      s := FailureIsStuck(deps, placed + ready);
    }
  }

  /**
   * The sort fails exactly when the reference graph (self-references aside)
   * has a set of resources each of which refers to another one of the set,
   * that is, when it has a reference cycle.
   */
  lemma SortFailsIffStuck(g: Graph)
    ensures TopologicalSort(g).Err? <==> exists s :: Stuck(Dependencies(g), s)
  {
    var deps := Dependencies(g);
    if TopologicalSort(g).Err? {
      var s := FailureIsStuck(deps, {});
    } else {
      forall s | Stuck(deps, s) ensures false {
        StuckFails(deps, {}, s);
      }
    }
  }

  /** `c` is a reference cycle: each element refers to the next, the last to the first. */
  predicate IsCycle(g: Graph, c: seq<string>)
  {
    && |c| > 0
    && (forall i :: 0 <= i < |c| ==> c[i] in g)
    && (forall i :: 0 <= i < |c| ==> Next(c, i) != c[i] && Next(c, i) in References(g[c[i]]))
  }

  /** The element after position `i` of a cycle. */
  function Next(c: seq<string>, i: nat): string
    requires i < |c|
  {
    c[(i + 1) % |c|]
  }

  /** A reference cycle makes the sort fail. */
  lemma CycleFails(g: Graph, c: seq<string>)
    requires IsCycle(g, c)
    ensures TopologicalSort(g).Err?
  {
    var s := CycleStuck(g, c);
    StuckFails(Dependencies(g), {}, s);
  }

  /** The members of a reference cycle form a stuck set. */
  lemma CycleStuck(g: Graph, c: seq<string>) returns (s: set<string>)
    requires IsCycle(g, c)
    ensures Stuck(Dependencies(g), s)
  {
    var deps := Dependencies(g);
    s := set x | x in c;
    forall k | k in s ensures k in deps && deps[k] * s != {} {
      var i :| 0 <= i < |c| && c[i] == k;
      CycleStep(g, c, i);
    }
    assert c[0] in s;
  }

  lemma CycleStep(g: Graph, c: seq<string>, i: nat)
    requires IsCycle(g, c) && i < |c|
    ensures c[i] in Dependencies(g)
    ensures Next(c, i) in c && Next(c, i) in Dependencies(g)[c[i]]
  {
    var n := (i + 1) % |c|;
    assert Next(c, i) == c[n];
  }
}
