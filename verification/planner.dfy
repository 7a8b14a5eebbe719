/**
 * The planner of executor.py (`_diff`): which resource ids are created,
 * deleted, or updated in place when moving from a recorded state to a
 * desired graph.
 *
 * `PlanOf` states the plan declaratively; the method `Diff` follows the
 * Python loop (filter the changed candidates, split off those that must be
 * recreated, repeat until nothing more is split off) and is proved to
 * compute `PlanOf`, in at most two passes.
 */
module Planner {
  import opened Types
  import opened Handlers
  import opened PropertyDiff

  /** The three sets `_diff` returns. */
  datatype Plan = Plan(created: set<string>, deleted: set<string>, modified: set<string>)

  /** Ids present on both sides whose properties differ. */
  function Changed(desired: Graph, oldState: Graph): (c: set<string>)
    ensures forall k :: k in c <==>
      k in desired && k in oldState && desired[k].properties != oldState[k].properties
  {
    var c := set k | k in desired && k in oldState && ResourceDiff(desired[k], oldState[k]) != map[];
    forall k | k in desired && k in oldState
      ensures k in c <==> desired[k].properties != oldState[k].properties
    {
      DiffEmptyIffSameProperties(desired[k], oldState[k]);
    }
    c
  }

  /** A changed id of unchanged type whose type tag has no handler: `from_type` raises. */
  predicate UnknownHandler(desired: Graph, oldState: Graph, k: string)
    requires k in desired && k in oldState
  {
    desired[k].resourceType == oldState[k].resourceType && FromType(desired[k].resourceType).Err?
  }

  /** A changed id is recreated when its type changed or its handler asks for it. */
  predicate MustRecreate(desired: Graph, oldState: Graph, k: string)
    requires k in desired && k in oldState
  {
    || desired[k].resourceType != oldState[k].resourceType
    || (FromType(desired[k].resourceType).Ok?
        && RequiresRecreate(FromType(desired[k].resourceType).value, desired[k], oldState[k]))
  }

  function Recreated(desired: Graph, oldState: Graph): (r: set<string>)
    ensures r <= Changed(desired, oldState)
  {
    set k | k in Changed(desired, oldState) && MustRecreate(desired, oldState, k)
  }

  /** Planning raises exactly when some changed id of unchanged type has no handler. */
  predicate PlanFails(desired: Graph, oldState: Graph)
  {
    exists k :: k in Changed(desired, oldState) && UnknownHandler(desired, oldState, k)
  }

  /**
   * The plan: new ids and recreated ids are created, vanished ids and
   * recreated ids are deleted, and the other changed ids are updated.
   */
  function PlanOf(desired: Graph, oldState: Graph): (p: Plan)
    ensures p.created <= desired.Keys && p.deleted <= oldState.Keys
    ensures p.modified <= desired.Keys * oldState.Keys
  {
    var r := Recreated(desired, oldState);
    Plan((desired.Keys - oldState.Keys) + r, (oldState.Keys - desired.Keys) + r, Changed(desired, oldState) - r)
  }

  /**
   * The sets of a plan: creations are desired ids, deletions recorded ids,
   * updates changed ids present on both sides; an update is neither a
   * creation nor a deletion, and an id both created and deleted is on both
   * sides (a recreation).
   */
  lemma PlanShape(desired: Graph, oldState: Graph)
    ensures var p := PlanOf(desired, oldState);
      && p.modified <= Changed(desired, oldState)
      && p.modified !! p.created
      && p.modified !! p.deleted
      && p.created * p.deleted == Recreated(desired, oldState)
      && p.created - p.deleted == desired.Keys - oldState.Keys
      && p.deleted - p.created == oldState.Keys - desired.Keys
  {
    var p := PlanOf(desired, oldState);
    var r := Recreated(desired, oldState);
    assert forall k :: k in r ==> k in desired && k in oldState;
  }

  /**
   * An id present on both sides with identical properties is in none of the
   * three sets, even when its type tag changed.
   */
  lemma UnchangedIgnored(desired: Graph, oldState: Graph, k: string)
    requires k in desired && k in oldState
    requires desired[k].properties == oldState[k].properties
    ensures var p := PlanOf(desired, oldState);
      k !in p.created && k !in p.deleted && k !in p.modified
  {
  }

  /**
   * A changed id that survives planning is recreated (created and deleted)
   * exactly when its type changed or its handler's rule fires: a directory
   * whose location changed, any file, a dummy resource whose immutable parent
   * changed. Otherwise it is updated in place.
   */
  lemma RecreateRule(desired: Graph, oldState: Graph, k: string)
    requires k in Changed(desired, oldState) && !UnknownHandler(desired, oldState, k)
    ensures var p := PlanOf(desired, oldState);
      var n, o := desired[k], oldState[k];
      (k in p.created && k in p.deleted) <==>
        || n.resourceType != o.resourceType
        || (n.resourceType == "directory" && Get(n.properties, "location") != Get(o.properties, "location"))
        || n.resourceType == "file"
        || (n.resourceType == "dummy_ref_resource"
            && Get(n.properties, "immutable_parent") != Get(o.properties, "immutable_parent"))
    ensures var p := PlanOf(desired, oldState);
      k in p.modified <==> !(k in p.created && k in p.deleted)
  {
    var n, o := desired[k], oldState[k];
    if n.resourceType == o.resourceType {
      var h := FromType(n.resourceType);
      assert h.Ok?;
      match h.value
      case Directory =>
      case File =>
      case DummyRefResource =>
    }
  }

  /** An updated id keeps its type, has a handler, and that handler does not ask for recreation. */
  lemma ModifiedKeepsType(desired: Graph, oldState: Graph, k: string)
    requires k in PlanOf(desired, oldState).modified
    ensures k in desired && k in oldState
    ensures desired[k].resourceType == oldState[k].resourceType
    ensures FromType(desired[k].resourceType).Ok? || UnknownHandler(desired, oldState, k)
    ensures FromType(desired[k].resourceType).Ok? ==>
      !RequiresRecreate(FromType(desired[k].resourceType).value, desired[k], oldState[k])
  {
  }

  /**
   * Two graphs with the same ids and the same properties per id give the
   * empty plan, whatever their type tags and statuses.
   */
  lemma SamePropertiesEmptyPlan(desired: Graph, oldState: Graph)
    requires desired.Keys == oldState.Keys
    requires forall k :: k in desired ==> desired[k].properties == oldState[k].properties
    ensures Changed(desired, oldState) == {}
    ensures !PlanFails(desired, oldState)
    ensures PlanOf(desired, oldState) == Plan({}, {}, {})
  {
    assert Recreated(desired, oldState) == {};
  }

  /** The first loop of a pass: the candidates whose properties differ. */
  method ChangedAmong(desired: Graph, oldState: Graph, candidates: set<string>) returns (modified: set<string>)
    requires candidates <= desired.Keys * oldState.Keys
    ensures modified == candidates * Changed(desired, oldState)
  {
    ghost var changed := Changed(desired, oldState);
    modified := {};
    var rest := candidates;
    while rest != {}
      invariant rest <= candidates
      invariant forall k :: k in modified <==> k in candidates && k !in rest && k in changed
      decreases |rest|
    {
      var m :| m in rest;
      rest := rest - {m};
      if ResourceDiff(desired[m], oldState[m]) != map[] {
        modified := modified + {m};
      }
    }
    assert modified == candidates * changed;
  }

  /**
   * The second loop of a pass: split the changed ids into those recreated
   * and those updated in place; a missing handler raises.
   */
  method SplitRecreated(desired: Graph, oldState: Graph, modified: set<string>)
    returns (r: Result<(set<string>, set<string>)>)
    requires modified <= Changed(desired, oldState)
    ensures r.Err? <==> exists k :: k in modified && UnknownHandler(desired, oldState, k)
    ensures r.Err? ==>
      exists k :: k in modified && UnknownHandler(desired, oldState, k) && r.error == UnknownType(desired[k].resourceType)
    ensures r.Ok? ==>
      r.value == (modified * Recreated(desired, oldState), modified - Recreated(desired, oldState))
  {
    ghost var recreated := Recreated(desired, oldState);
    var mustBeRecreated: set<string> := {};
    var newModified: set<string> := {};
    var rest := modified;
    while rest != {}
      invariant rest <= modified
      invariant forall k :: k in mustBeRecreated <==> k in modified && k !in rest && k in recreated
      invariant forall k :: k in newModified <==> k in modified && k !in rest && k !in recreated
      invariant forall k :: k in modified && k !in rest ==> !UnknownHandler(desired, oldState, k)
      decreases |rest|
    {
      var m :| m in rest;
      rest := rest - {m};
      assert m in Changed(desired, oldState);
      if desired[m].resourceType != oldState[m].resourceType {
        assert m in recreated;
        mustBeRecreated := mustBeRecreated + {m};
      } else {
        var h := FromType(desired[m].resourceType);
        if h.Err? {
          assert UnknownHandler(desired, oldState, m);
          return Err(h.error);
        }
        if RequiresRecreate(h.value, desired[m], oldState[m]) {
          assert m in recreated;
          mustBeRecreated := mustBeRecreated + {m};
        } else {
          assert m !in recreated;
          newModified := newModified + {m};
        }
      }
    }
    assert mustBeRecreated == modified * recreated;
    assert newModified == modified - recreated;
    r := Ok((mustBeRecreated, newModified));
  }

  /**
   * `_diff(ctx, new_state, old_state)`, following the Python loop. Each pass
   * that does not stop continues with strictly fewer candidates; the second
   * pass never splits anything off, so at most two passes run.
   */
  method Diff(desired: Graph, oldState: Graph) returns (r: Result<Plan>, ghost passes: nat)
    ensures r.Err? <==> PlanFails(desired, oldState)
    ensures r.Err? ==>
      exists k :: k in Changed(desired, oldState) && UnknownHandler(desired, oldState, k)
        && r.error == UnknownType(desired[k].resourceType)
    ensures r.Ok? ==> r.value == PlanOf(desired, oldState) && passes <= 2
  {
    var newKeys := desired.Keys;
    var oldKeys := oldState.Keys;
    var inserted := newKeys - oldKeys;
    var deleted := oldKeys - newKeys;
    var candidates := newKeys * oldKeys;
    ghost var changed := Changed(desired, oldState);
    ghost var recreated := Recreated(desired, oldState);
    var modified: set<string>;
    passes := 0;
    while true
      invariant passes <= 1
      invariant passes == 0 ==>
        candidates == newKeys * oldKeys && inserted == newKeys - oldKeys && deleted == oldKeys - newKeys
      invariant passes == 1 ==>
        && candidates == changed - recreated
        && inserted == (newKeys - oldKeys) + recreated
        && deleted == (oldKeys - newKeys) + recreated
        && !PlanFails(desired, oldState)
      decreases |candidates|
    {
      modified := ChangedAmong(desired, oldState, candidates);
      var split := SplitRecreated(desired, oldState, modified);
      if split.Err? {
        return Err(split.error), passes;
      }
      var (mustBeRecreated, newModified) := split.value;
      if passes == 0 {
        FirstPass(desired, oldState, modified, mustBeRecreated);
      } else {
        SecondPass(desired, oldState, candidates, modified);
      }
      SplitSizes(candidates, modified, recreated);
      if |modified| == |newModified| {
        FinalPlan(desired, oldState, passes, inserted, deleted, modified);
        passes := passes + 1;
        break;
      }
      candidates := newModified;
      inserted := inserted + mustBeRecreated;
      deleted := deleted + mustBeRecreated;
      passes := passes + 1;
    }
    var actuallyModified := Untouched(newKeys + oldKeys, inserted, deleted);
    r := Ok(Plan(inserted, deleted, modified));
  }

  /** The first pass sees every changed id, so it finds every recreation and every missing handler. */
  lemma FirstPass(desired: Graph, oldState: Graph, modified: set<string>, mustBeRecreated: set<string>)
    requires modified == (desired.Keys * oldState.Keys) * Changed(desired, oldState)
    requires forall k :: k in modified ==> !UnknownHandler(desired, oldState, k)
    requires mustBeRecreated == modified * Recreated(desired, oldState)
    ensures modified == Changed(desired, oldState)
    ensures mustBeRecreated == Recreated(desired, oldState)
    ensures !PlanFails(desired, oldState)
  {
    var changed := Changed(desired, oldState);
    forall k | k in changed ensures !UnknownHandler(desired, oldState, k) {
      assert k in modified;
    }
  }

  /** The second pass starts from the changed ids that were not recreated, so it recreates nothing. */
  lemma SecondPass(desired: Graph, oldState: Graph, candidates: set<string>, modified: set<string>)
    requires candidates == Changed(desired, oldState) - Recreated(desired, oldState)
    requires modified == candidates * Changed(desired, oldState)
    ensures modified == candidates
    ensures modified * Recreated(desired, oldState) == {}
  {
  }

  /** Splitting a subset of the candidates in two: the sizes add up, and no part outgrows the candidates. */
  lemma SplitSizes(candidates: set<string>, modified: set<string>, r: set<string>)
    requires modified <= candidates
    ensures |modified * r| + |modified - r| == |modified|
    ensures |modified| <= |candidates|
  {
    assert modified == (modified * r) + (modified - r);
    SubsetCard(modified, candidates);
  }

  /** The plan `Diff` returns once a pass splits nothing off. */
  lemma FinalPlan(desired: Graph, oldState: Graph, passes: nat,
                  inserted: set<string>, deleted: set<string>, modified: set<string>)
    requires passes == 0 ==>
      && inserted == desired.Keys - oldState.Keys && deleted == oldState.Keys - desired.Keys
      && Recreated(desired, oldState) == {} && modified == Changed(desired, oldState)
    requires passes != 0 ==>
      && inserted == (desired.Keys - oldState.Keys) + Recreated(desired, oldState)
      && deleted == (oldState.Keys - desired.Keys) + Recreated(desired, oldState)
      && modified == Changed(desired, oldState) - Recreated(desired, oldState)
    ensures Plan(inserted, deleted, modified) == PlanOf(desired, oldState)
  {
  }

  /** The ids in neither set; `_diff` builds this list and never uses it. */
  method Untouched(keys: set<string>, inserted: set<string>, deleted: set<string>) returns (untouched: set<string>)
    ensures untouched == keys - inserted - deleted
  {
    untouched := {};
    var rest := keys;
    while rest != {}
      invariant rest <= keys
      invariant forall k :: k in untouched <==> k in keys && k !in rest && k !in inserted && k !in deleted
      decreases |rest|
    {
      var k :| k in rest;
      rest := rest - {k};
      if k !in inserted && k !in deleted {
        untouched := untouched + {k};
      }
    }
    assert untouched == keys - inserted - deleted;
  }

  lemma SubsetCard(a: set<string>, b: set<string>)
    requires a <= b
    ensures |a| <= |b|
  {
    assert b == a + (b - a) && a !! (b - a);
  }
}
