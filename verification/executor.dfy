/**
 * `execute(old_state, graph_repr)` of executor.py: layer both graphs, plan,
 * then run the deletes (old layering, last layer first), the creates and the
 * updates (new layering, first layer first), and return the desired graph
 * with the statuses the handlers recorded, together with the script text.
 *
 * Within a layer the Python code follows set iteration order, which is not
 * specified; the model picks any element (`:|`) and the contract of
 * `Execute` is stated for every order that walks the layers, through ghost
 * out-parameters that name the order actually taken.
 */
module Executor {
  import opened Types
  import opened Strings
  import opened PropertyDiff
  import opened Layering
  import opened Handlers
  import opened Planner

  /** Id `k` can be handled in a phase: the resource exists, and for an update so does its old version. */
  predicate Available(kind: OpKind, k: string, source: Graph, oldState: Graph)
  {
    k in source && (kind == Update ==> k in oldState)
  }

  /**
   * The action the executor emits for id `k` in a phase, reading the
   * resource from `source`: `from_type` on its type tag, then the handler's
   * create, update (given the property diff against the old version) or delete.
   */
  function StepAction(kind: OpKind, k: string, source: Graph, oldState: Graph, desired: Graph): (r: Result<Action>)
    requires Available(kind, k, source, oldState)
    ensures r.Ok? ==>
      && r.value.kind == kind
      && r.value.resourceType == source[k].resourceType
      && r.value.resourceId == source[k].id
    ensures FromType(source[k].resourceType).Err? ==> r == Err(UnknownType(source[k].resourceType))
  {
    var h :- FromType(source[k].resourceType);
    match kind
    case Create => CreateAction(h, source[k], desired)
    case Update => UpdateAction(h, source[k], ResourceDiff(source[k], oldState[k]))
    case Delete => DeleteAction(h, source[k], desired)
  }

  /** The outcome of every id of `ids` in a phase that reads its resources from `source`. */
  function PhaseSteps(kind: OpKind, ids: set<string>, source: Graph, oldState: Graph, desired: Graph): (steps: map<string, Result<Action>>)
    requires forall k :: k in ids ==> Available(kind, k, source, oldState)
    ensures steps.Keys == ids
  {
    map k | k in ids :: StepAction(kind, k, source, oldState, desired)
  }

  /** `steps` holds the true outcome of each id it names. */
  ghost predicate StepsAgree(steps: map<string, Result<Action>>, kind: OpKind, source: Graph, oldState: Graph, desired: Graph)
  {
    && (forall k :: k in steps ==> Available(kind, k, source, oldState))
    && (forall k {:trigger StepAction(kind, k, source, oldState, desired)} ::
          k in steps && Available(kind, k, source, oldState) ==> steps[k] == StepAction(kind, k, source, oldState, desired))
  }

  lemma PhaseStepsAgree(kind: OpKind, ids: set<string>, source: Graph, oldState: Graph, desired: Graph)
    requires forall k :: k in ids ==> Available(kind, k, source, oldState)
    ensures StepsAgree(PhaseSteps(kind, ids, source, oldState, desired), kind, source, oldState, desired)
  {
  }

  /** Every id of `order` has an outcome, and none of them is an error. */
  predicate AllSucceed(order: seq<string>, steps: map<string, Result<Action>>)
  {
    forall i :: 0 <= i < |order| ==> order[i] in steps && steps[order[i]].Ok?
  }

  /** The actions of a phase that handled the ids of `order` in that order. */
  function PhaseActions(order: seq<string>, steps: map<string, Result<Action>>): (actions: seq<Action>)
    requires AllSucceed(order, steps)
    ensures |actions| == |order|
  {
    seq(|order|, i requires 0 <= i < |order| => steps[order[i]].value)
  }

  /** Some id of the phase fails. */
  predicate SomeFails(steps: map<string, Result<Action>>)
  {
    exists k :: k in steps && steps[k].Err?
  }

  /** The status `update_status` records for a resource whose handler ran the operation `kind`. */
  function Marked(kind: OpKind, r: ResourceRepr): (m: ResourceRepr)
    ensures m.id == r.id && m.resourceType == r.resourceType && m.properties == r.properties
    ensures FromType(r.resourceType).Ok? ==> m.status == Some(StatusAfter(kind, FromType(r.resourceType).value))
  {
    match FromType(r.resourceType)
    case Ok(h) => WithStatus(r, StatusAfter(kind, h))
    case Err(_) => r
  }

  /** `g` after the handlers of the ids in `order` recorded their status. */
  function MarkAll(kind: OpKind, g: Graph, order: seq<string>): (m: Graph)
    ensures m.Keys == g.Keys
  {
    map k | k in g :: if k in order then Marked(kind, g[k]) else g[k]
  }

  predicate Distinct(s: seq<string>)
  {
    forall i, j :: 0 <= i < j < |s| ==> s[i] != s[j]
  }

  /** Whenever `order` visits one id before another, the first lies in the same or an earlier layer. */
  predicate FollowsLayers(order: seq<string>, layers: seq<set<string>>)
  {
    forall i, j, a, b ::
      (0 <= i < j < |order| && 0 <= a < |layers| && 0 <= b < |layers| && order[i] in layers[a] && order[j] in layers[b])
      ==> a <= b
  }

  /** `order` visits each selected id of the layers exactly once, layer by layer. */
  ghost predicate Walks(order: seq<string>, layers: seq<set<string>>, sel: set<string>)
  {
    && Distinct(order)
    && (forall k :: k in order <==> k in sel && k in Union(layers))
    && FollowsLayers(order, layers)
  }

  /** The loop state of a phase after `i` layers. */
  ghost predicate WalkedSoFar(order: seq<string>, layers: seq<set<string>>, sel: set<string>, i: nat)
    requires i <= |layers|
  {
    && Distinct(order)
    && (forall k :: k in order <==> k in sel && k in Union(layers[..i]))
    && (forall p, a :: 0 <= p < |order| && 0 <= a < |layers| && order[p] in layers[a] ==> a < i)
    && FollowsLayers(order, layers)
  }

  /** Appending the selected ids of layer `i`, in any order, continues a walk. */
  lemma ExtendWalk(layers: seq<set<string>>, sel: set<string>, i: nat, order: seq<string>, part: seq<string>)
    requires Disjoint(layers) && i < |layers|
    requires WalkedSoFar(order, layers, sel, i)
    requires Distinct(part) && (forall k :: k in part <==> k in sel && k in layers[i])
    ensures WalkedSoFar(order + part, layers, sel, i + 1)
  {
    var o := order + part;
    UnionPrefix(layers, i);
    NotYetWalked(order, layers, sel, i);
    forall p, q | 0 <= p < q < |o| ensures o[p] != o[q] {
      if q >= |order| && p < |order| {
        assert o[q] in part;
      } else if p >= |order| {
        assert o[p] == part[p - |order|] && o[q] == part[q - |order|];
      }
    }
    forall p, a | 0 <= p < |o| && 0 <= a < |layers| && o[p] in layers[a] ensures a < i + 1 {
      if p >= |order| {
        assert o[p] in layers[i];
        assert forall c :: i < c < |layers| ==> o[p] !in layers[c];
      }
    }
    forall p, q, a, b | 0 <= p < q < |o| && 0 <= a < |layers| && 0 <= b < |layers| && o[p] in layers[a] && o[q] in layers[b]
      ensures a <= b
    {
      if q >= |order| {
        assert o[q] in layers[i];
        assert forall c :: 0 <= c < i ==> o[q] !in layers[c];
      }
    }
  }

  /** The ids of layer `i` are not yet walked after the first `i` layers. */
  lemma NotYetWalked(order: seq<string>, layers: seq<set<string>>, sel: set<string>, i: nat)
    requires Disjoint(layers) && i < |layers|
    requires WalkedSoFar(order, layers, sel, i)
    ensures forall k :: k in layers[i] ==> k !in order
  {
    forall k | k in order ensures k !in layers[i] {
      var a := LayerOf(layers[..i], k);
      assert k in layers[a] && layers[a] !! layers[i];
    }
  }

  /** The actions of a run followed by another are the actions of each. */
  lemma PhaseActionsAppend(a: seq<string>, b: seq<string>, steps: map<string, Result<Action>>)
    requires AllSucceed(a, steps) && AllSucceed(b, steps)
    ensures AllSucceed(a + b, steps)
    ensures PhaseActions(a + b, steps) == PhaseActions(a, steps) + PhaseActions(b, steps)
  {
    var ab := a + b;
    forall i | 0 <= i < |ab| ensures ab[i] in steps && steps[ab[i]].Ok? {
      if i < |a| {
        assert ab[i] == a[i];
      } else {
        assert ab[i] == b[i - |a|];
      }
    }
    var l := PhaseActions(ab, steps);
    var r := PhaseActions(a, steps) + PhaseActions(b, steps);
    forall i | 0 <= i < |l| ensures l[i] == r[i] {
      if i < |a| {
        assert ab[i] == a[i];
      } else {
        assert ab[i] == b[i - |a|];
      }
    }
  }

  /** Every id of a successful run succeeded. */
  lemma SucceededMembers(order: seq<string>, steps: map<string, Result<Action>>)
    requires AllSucceed(order, steps)
    ensures forall k :: k in order ==> k in steps && steps[k].Ok?
  {
    forall k | k in order ensures k in steps && steps[k].Ok? {
      var i :| 0 <= i < |order| && order[i] == k;
    }
  }

  /** The action for an id only depends on that id's resources. */
  lemma StepActionFrame(kind: OpKind, k: string, g1: Graph, g2: Graph, old1: Graph, old2: Graph, desired: Graph)
    requires Available(kind, k, g1, old1) && k in g2 && g2[k] == g1[k]
    requires kind == Update ==> k in old2 && old2[k] == old1[k]
    ensures Available(kind, k, g2, old2)
    ensures StepAction(kind, k, g1, old1, desired) == StepAction(kind, k, g2, old2, desired)
  {
  }

  lemma AppendAssociative(a: seq<Action>, b: seq<Action>, c: seq<Action>)
    ensures (a + b) + c == a + (b + c)
  {
  }

  /** The bookkeeping of one more successful id: its action and its status. */
  lemma ExtendPart(kind: OpKind, graph: Graph, start: seq<Action>, done: seq<string>, part: seq<string>, key: string,
                   steps: map<string, Result<Action>>)
    requires AllSucceed(part, steps) && key in steps && steps[key].Ok?
    requires key in graph && key !in done && key !in part
    ensures AllSucceed(part + [key], steps)
    ensures (start + PhaseActions(part, steps)) + [steps[key].value] == start + PhaseActions(part + [key], steps)
    ensures MarkAll(kind, graph, done + part)[key := Marked(kind, graph[key])] == MarkAll(kind, graph, done + (part + [key]))
  {
    PhaseActionsAppend(part, [key], steps);
    AppendAssociative(start, PhaseActions(part, steps), PhaseActions([key], steps));
    assert done + (part + [key]) == (done + part) + [key];
  }

  /**
   * One iteration of the inner loop of a phase: build the handler for the
   * resource and run its create, update or delete.
   */
  method RunStep(ctx: ScriptCtx, kind: OpKind, key: string, g: Graph, oldState: Graph) returns (res: Result<ResourceRepr>)
    requires Available(kind, key, g, oldState)
    modifies ctx
    ensures res.Err? <==> StepAction(kind, key, g, oldState, ctx.repr).Err?
    ensures res.Err? ==> res.error == StepAction(kind, key, g, oldState, ctx.repr).error
    ensures res.Ok? ==>
      && ctx.Actions() == old(ctx.Actions()) + [StepAction(kind, key, g, oldState, ctx.repr).value]
      && res.value == Marked(kind, g[key])
  {
    var repr := g[key];
    var h := FromType(repr.resourceType);
    if h.Err? {
      return Err(h.error);
    }
    var exec := new ExecutableResource(h.value, repr);
    var out: Outcome;
    match kind {
      case Create =>
        out := exec.Create(ctx);
      case Update =>
        var changedProps := ResourceDiff(repr, oldState[key]);
        out := exec.Update(ctx, changedProps);
      case Delete =>
        out := exec.Delete(ctx);
    }
    if out.Fail? {
      return Err(out.error);
    }
    res := Ok(exec.resource);
  }

  /**
   * The body of the inner loop: handle one more id and record its action
   * after those of `part`. `graph` is the graph at the start of the phase,
   * `done` the ids the earlier layers handled, `g` the graph as it is now.
   */
  method HandleOne(ctx: ScriptCtx, kind: OpKind, key: string, graph: Graph, g: Graph, oldState: Graph,
                   ghost steps: map<string, Result<Action>>, ghost done: seq<string>, ghost part: seq<string>,
                   ghost start: seq<Action>)
    returns (res: Result<Graph>)
    requires StepsAgree(steps, kind, graph, oldState, ctx.repr)
    requires key in steps && key !in done && key !in part
    requires g == MarkAll(kind, graph, done + part)
    requires AllSucceed(part, steps)
    requires ctx.Actions() == start + PhaseActions(part, steps)
    modifies ctx
    ensures res.Err? <==> steps[key].Err?
    ensures res.Err? ==> res.error == steps[key].error
    ensures res.Ok? ==>
      && AllSucceed(part + [key], steps)
      && ctx.Actions() == start + PhaseActions(part + [key], steps)
      && res.value == MarkAll(kind, graph, done + (part + [key]))
  {
    assert Available(kind, key, graph, oldState);
    assert steps[key] == StepAction(kind, key, graph, oldState, ctx.repr);
    StepActionFrame(kind, key, graph, g, oldState, oldState, ctx.repr);
    var step := RunStep(ctx, kind, key, g, oldState);
    if step.Err? {
      return Err(step.error);
    }
    ExtendPart(kind, graph, start, done, part, key, steps);
    res := Ok(g[key := step.value]);
  }

  /** Taking one more id out of the pending ones of a layer keeps the record of the selected ids handled so far. */
  lemma PendingStep(part: seq<string>, sel: set<string>, layer: set<string>, pending: set<string>, key: string)
    requires Distinct(part) && (forall k :: k in part <==> k in sel && k in layer && k !in pending)
    requires key in pending && pending <= layer
    ensures key !in part
    ensures key in sel ==>
      Distinct(part + [key]) && (forall k :: k in part + [key] <==> k in sel && k in layer && k !in pending - {key})
    ensures key !in sel ==> (forall k :: k in part <==> k in sel && k in layer && k !in pending - {key})
  {
  }

  /** The inner loop of a phase: the selected ids of one layer, in unspecified order. */
  method RunLayer(ctx: ScriptCtx, kind: OpKind, layer: set<string>, sel: set<string>, graph: Graph, g: Graph, oldState: Graph,
                  ghost steps: map<string, Result<Action>>, ghost done: seq<string>)
    returns (res: Result<Graph>, ghost part: seq<string>)
    requires StepsAgree(steps, kind, graph, oldState, ctx.repr)
    requires sel <= steps.Keys
    requires forall k :: k in sel && k in layer ==> k !in done
    requires g == MarkAll(kind, graph, done)
    modifies ctx
    ensures res.Err? <==> exists k :: k in sel && k in layer && steps[k].Err?
    ensures res.Ok? ==>
      && Distinct(part)
      && (forall k :: k in part <==> k in sel && k in layer)
      && AllSucceed(part, steps)
      && ctx.Actions() == old(ctx.Actions()) + PhaseActions(part, steps)
      && res.value == MarkAll(kind, graph, done + part)
  {
    ghost var start := ctx.Actions();
    var current := g;
    part := [];
    assert done + part == done;
    var pending := layer;
    while pending != {}
      invariant pending <= layer
      invariant Distinct(part)
      invariant forall k :: k in part <==> k in sel && k in layer && k !in pending
      invariant AllSucceed(part, steps)
      invariant ctx.Actions() == start + PhaseActions(part, steps)
      invariant current == MarkAll(kind, graph, done + part)
      decreases |pending|
    {
      var key :| key in pending;
      PendingStep(part, sel, layer, pending, key);
      pending := pending - {key};
      if key in sel {
        var step := HandleOne(ctx, kind, key, graph, current, oldState, steps, done, part, start);
        if step.Err? {
          return Err(step.error), part;
        }
        current := step.value;
        part := part + [key];
      }
    }
    SucceededMembers(part, steps);
    res := Ok(current);
  }

  /**
   * One phase: every layer in turn, handling the ids of `sel`. The ids are
   * handled in a walk of the layers; the phase fails exactly when some
   * selected id's handler raises.
   */
  method RunPhase(ctx: ScriptCtx, kind: OpKind, layers: seq<set<string>>, sel: set<string>, graph: Graph, oldState: Graph,
                  ghost steps: map<string, Result<Action>>)
    returns (res: Result<Graph>, ghost order: seq<string>)
    requires Disjoint(layers)
    requires StepsAgree(steps, kind, graph, oldState, ctx.repr)
    requires sel <= steps.Keys
    modifies ctx
    ensures res.Err? <==> exists k :: k in sel && k in Union(layers) && steps[k].Err?
    ensures res.Ok? ==>
      && Walks(order, layers, sel)
      && AllSucceed(order, steps)
      && ctx.Actions() == old(ctx.Actions()) + PhaseActions(order, steps)
      && res.value == MarkAll(kind, graph, order)
  {
    ghost var start := ctx.Actions();
    var g := graph;
    order := [];
    assert g == MarkAll(kind, graph, order);
    var i := 0;
    while i < |layers|
      invariant i <= |layers|
      invariant WalkedSoFar(order, layers, sel, i)
      invariant AllSucceed(order, steps)
      invariant ctx.Actions() == start + PhaseActions(order, steps)
      invariant g == MarkAll(kind, graph, order)
    {
      NotYetWalked(order, layers, sel, i);
      var step, part := RunLayer(ctx, kind, layers[i], sel, graph, g, oldState, steps, order);
      if step.Err? {
        return Err(step.error), order;
      }
      PhaseActionsAppend(order, part, steps);
      AppendAssociative(start, PhaseActions(order, steps), PhaseActions(part, steps));
      ExtendWalk(layers, sel, i, order, part);
      order := order + part;
      g := step.value;
      i := i + 1;
    }
    assert layers[..i] == layers;
    SucceededMembers(order, steps);
    res := Ok(g);
  }

  /** The outcome of each planned deletion, read from the recorded state. */
  function DeleteSteps(desired: Graph, oldState: Graph): (steps: map<string, Result<Action>>)
    ensures steps.Keys == PlanOf(desired, oldState).deleted
  {
    PhaseSteps(Delete, PlanOf(desired, oldState).deleted, oldState, oldState, desired)
  }

  /** The outcome of each planned creation, read from the desired graph. */
  function CreateSteps(desired: Graph, oldState: Graph): (steps: map<string, Result<Action>>)
    ensures steps.Keys == PlanOf(desired, oldState).created
  {
    PhaseSteps(Create, PlanOf(desired, oldState).created, desired, oldState, desired)
  }

  /** The outcome of each planned update, read from the desired graph and diffed against the recorded state. */
  function UpdateSteps(desired: Graph, oldState: Graph): (steps: map<string, Result<Action>>)
    ensures steps.Keys == PlanOf(desired, oldState).modified
  {
    PhaseSteps(Update, PlanOf(desired, oldState).modified, desired, oldState, desired)
  }

  /**
   * `execute` raises: one of the graphs has a reference cycle, planning
   * meets an unknown type, or some planned deletion, creation or update raises.
   */
  predicate Fails(oldState: Graph, desired: Graph)
  {
    || TopologicalSort(desired).Err?
    || TopologicalSort(oldState).Err?
    || PlanFails(desired, oldState)
    || SomeFails(DeleteSteps(desired, oldState))
    || SomeFails(CreateSteps(desired, oldState))
    || SomeFails(UpdateSteps(desired, oldState))
  }

  /** The desired graph with the statuses recorded by the creations and the updates. */
  function NewState(desired: Graph, oldState: Graph): (g: Graph)
    ensures g.Keys == desired.Keys
    ensures forall k :: k in g ==> g[k].id == desired[k].id && g[k].properties == desired[k].properties
  {
    var p := PlanOf(desired, oldState);
    map k | k in desired ::
      if k in p.created then Marked(Create, desired[k])
      else if k in p.modified then Marked(Update, desired[k])
      else desired[k]
  }

  /** The actions of a run: the deletions, then the creations, then the updates. */
  function ScriptActions(desired: Graph, oldState: Graph, dOrder: seq<string>, cOrder: seq<string>, uOrder: seq<string>)
    : (actions: seq<Action>)
    requires AllSucceed(dOrder, DeleteSteps(desired, oldState))
    requires AllSucceed(cOrder, CreateSteps(desired, oldState))
    requires AllSucceed(uOrder, UpdateSteps(desired, oldState))
    ensures |actions| == |dOrder| + |cOrder| + |uOrder|
  {
    PhaseActions(dOrder, DeleteSteps(desired, oldState))
      + PhaseActions(cOrder, CreateSteps(desired, oldState))
      + PhaseActions(uOrder, UpdateSteps(desired, oldState))
  }

  /**
   * A successful `execute` that handled the deletions in `dOrder` (a walk of
   * the recorded state's layers, last layer first), then the creations in
   * `cOrder` and the updates in `uOrder` (walks of the desired graph's
   * layers), returning `newState` and the script text `script`.
   */
  ghost predicate Succeeds(oldState: Graph, desired: Graph, dOrder: seq<string>, cOrder: seq<string>, uOrder: seq<string>,
                           newState: Graph, script: string)
  {
    && TopologicalSort(desired).Ok?
    && TopologicalSort(oldState).Ok?
    && !PlanFails(desired, oldState)
    && var p := PlanOf(desired, oldState);
    && Walks(dOrder, Reverse(TopologicalSort(oldState).value), p.deleted)
    && Walks(cOrder, TopologicalSort(desired).value, p.created)
    && Walks(uOrder, TopologicalSort(desired).value, p.modified)
    && AllSucceed(dOrder, DeleteSteps(desired, oldState))
    && AllSucceed(cOrder, CreateSteps(desired, oldState))
    && AllSucceed(uOrder, UpdateSteps(desired, oldState))
    && script == DumpScript(ScriptActions(desired, oldState, dOrder, cOrder, uOrder))
    && newState == NewState(desired, oldState)
  }

  /** The updates read the graphs left by the earlier phases, which agree with the inputs on the updated ids. */
  lemma UpdateStepsAgree(desired: Graph, oldState: Graph, created: Graph, deleted: Graph, cOrder: seq<string>, dOrder: seq<string>)
    requires created == MarkAll(Create, desired, cOrder) && deleted == MarkAll(Delete, oldState, dOrder)
    requires forall k :: k in cOrder ==> k in PlanOf(desired, oldState).created
    requires forall k :: k in dOrder ==> k in PlanOf(desired, oldState).deleted
    ensures StepsAgree(UpdateSteps(desired, oldState), Update, created, deleted, desired)
  {
    var p := PlanOf(desired, oldState);
    PlanShape(desired, oldState);
    var steps := UpdateSteps(desired, oldState);
    forall k | k in steps
      ensures Available(Update, k, created, deleted)
      ensures steps[k] == StepAction(Update, k, created, deleted, desired)
    {
      StepActionFrame(Update, k, desired, created, oldState, deleted, desired);
    }
  }

  /** The graph after the creations and the updates is `NewState`. */
  lemma MarkedIsNewState(desired: Graph, oldState: Graph, cOrder: seq<string>, uOrder: seq<string>)
    requires forall k :: k in cOrder <==> k in PlanOf(desired, oldState).created
    requires forall k :: k in uOrder <==> k in PlanOf(desired, oldState).modified
    ensures MarkAll(Update, MarkAll(Create, desired, cOrder), uOrder) == NewState(desired, oldState)
  {
    PlanShape(desired, oldState);
  }

  /** The three phases together make a successful run. */
  lemma Concluded(oldState: Graph, desired: Graph, dOrder: seq<string>, cOrder: seq<string>, uOrder: seq<string>,
                  actions: seq<Action>, newState: Graph)
    requires TopologicalSort(desired).Ok? && TopologicalSort(oldState).Ok? && !PlanFails(desired, oldState)
    requires Walks(dOrder, Reverse(TopologicalSort(oldState).value), PlanOf(desired, oldState).deleted)
    requires Walks(cOrder, TopologicalSort(desired).value, PlanOf(desired, oldState).created)
    requires Walks(uOrder, TopologicalSort(desired).value, PlanOf(desired, oldState).modified)
    requires AllSucceed(dOrder, DeleteSteps(desired, oldState))
    requires AllSucceed(cOrder, CreateSteps(desired, oldState))
    requires AllSucceed(uOrder, UpdateSteps(desired, oldState))
    requires actions == (([] + PhaseActions(dOrder, DeleteSteps(desired, oldState)))
      + PhaseActions(cOrder, CreateSteps(desired, oldState))) + PhaseActions(uOrder, UpdateSteps(desired, oldState))
    requires newState == MarkAll(Update, MarkAll(Create, desired, cOrder), uOrder)
    ensures Succeeds(oldState, desired, dOrder, cOrder, uOrder, newState, DumpScript(actions))
  {
    var p := PlanOf(desired, oldState);
    ReverseLayers(TopologicalSort(oldState).value);
    assert p.created <= Union(TopologicalSort(desired).value);
    assert p.modified <= Union(TopologicalSort(desired).value);
    assert p.deleted <= Union(Reverse(TopologicalSort(oldState).value));
    MarkedIsNewState(desired, oldState, cOrder, uOrder);
    assert [] + PhaseActions(dOrder, DeleteSteps(desired, oldState)) == PhaseActions(dOrder, DeleteSteps(desired, oldState));
    assert actions == ScriptActions(desired, oldState, dOrder, cOrder, uOrder);
  }

  /** A phase handles exactly the selected ids when they all lie in the layers. */
  lemma PhaseFailsIff(layers: seq<set<string>>, sel: set<string>, steps: map<string, Result<Action>>)
    requires sel == steps.Keys && sel <= Union(layers)
    ensures (exists k :: k in sel && k in Union(layers) && steps[k].Err?) <==> SomeFails(steps)
  {
  }

  /**
   * `execute(old_state, graph_repr)`: layer both graphs, plan, run the
   * deletions over the recorded state's layers in reverse, then the
   * creations and the updates over the desired graph's layers, and return
   * the desired graph with its recorded statuses and the script.
   */
  method Execute(oldState: Graph, desired: Graph)
    returns (result: Result<(Graph, string)>, ghost dOrder: seq<string>, ghost cOrder: seq<string>, ghost uOrder: seq<string>)
    ensures result.Err? <==> Fails(oldState, desired)
    ensures result.Err? && TopologicalSort(desired).Err? ==> result.error == ReferenceCycle
    ensures result.Ok? ==> Succeeds(oldState, desired, dOrder, cOrder, uOrder, result.value.0, result.value.1)
  {
    dOrder, cOrder, uOrder := [], [], [];
    var sortedNewKeys := TopologicalSort(desired);
    if sortedNewKeys.Err? {
      return Err(sortedNewKeys.error), dOrder, cOrder, uOrder;
    }
    var sortedOldKeys := TopologicalSort(oldState);
    if sortedOldKeys.Err? {
      return Err(sortedOldKeys.error), dOrder, cOrder, uOrder;
    }
    var ctx := new ScriptCtx(desired);
    var diff, passes := Diff(desired, oldState);
    if diff.Err? {
      return Err(diff.error), dOrder, cOrder, uOrder;
    }
    var plan := diff.value;
    var newLayers, oldLayers := sortedNewKeys.value, Reverse(sortedOldKeys.value);
    ReverseLayers(sortedOldKeys.value);

    ghost var dSteps := DeleteSteps(desired, oldState);
    PhaseStepsAgree(Delete, plan.deleted, oldState, oldState, desired);
    PhaseFailsIff(oldLayers, plan.deleted, dSteps);
    var deleted;
    deleted, dOrder := RunPhase(ctx, Delete, oldLayers, plan.deleted, oldState, oldState, dSteps);
    if deleted.Err? {
      return Err(deleted.error), dOrder, cOrder, uOrder;
    }

    ghost var cSteps := CreateSteps(desired, oldState);
    PhaseStepsAgree(Create, plan.created, desired, oldState, desired);
    PhaseFailsIff(newLayers, plan.created, cSteps);
    var created;
    created, cOrder := RunPhase(ctx, Create, newLayers, plan.created, desired, oldState, cSteps);
    if created.Err? {
      return Err(created.error), dOrder, cOrder, uOrder;
    }

    ghost var uSteps := UpdateSteps(desired, oldState);
    UpdateStepsAgree(desired, oldState, created.value, deleted.value, cOrder, dOrder);
    PhaseFailsIff(newLayers, plan.modified, uSteps);
    var updated;
    updated, uOrder := RunPhase(ctx, Update, newLayers, plan.modified, created.value, deleted.value, uSteps);
    if updated.Err? {
      return Err(updated.error), dOrder, cOrder, uOrder;
    }

    Concluded(oldState, desired, dOrder, cOrder, uOrder, ctx.Actions(), updated.value);
    result := Ok((updated.value, ctx.DumpStr()));
  }

  /** Each action of a phase names the resource handled at its position, with the phase's kind. */
  lemma PhaseActionsNamed(kind: OpKind, order: seq<string>, steps: map<string, Result<Action>>,
                          source: Graph, oldState: Graph, desired: Graph, i: nat)
    requires StepsAgree(steps, kind, source, oldState, desired) && AllSucceed(order, steps)
    requires i < |order|
    ensures order[i] in source
    ensures PhaseActions(order, steps)[i].kind == kind
    ensures PhaseActions(order, steps)[i].resourceId == source[order[i]].id
  {
    var k := order[i];
    assert Available(kind, k, source, oldState);
    assert steps[k] == StepAction(kind, k, source, oldState, desired);
  }

  /** Positions in a concatenation of three sequences. */
  lemma ConcatIndex(d: seq<Action>, c: seq<Action>, u: seq<Action>, i: nat)
    requires i < |d| + |c| + |u|
    ensures i < |d| ==> (d + c + u)[i] == d[i]
    ensures |d| <= i < |d| + |c| ==> (d + c + u)[i] == c[i - |d|]
    ensures |d| + |c| <= i ==> (d + c + u)[i] == u[i - |d| - |c|]
  {
  }

  /** The positions of three phases' actions laid end to end, for any step outcomes that agree with the handlers. */
  lemma PhasesInOrder(oldState: Graph, desired: Graph, dOrder: seq<string>, cOrder: seq<string>, uOrder: seq<string>,
                      dSteps: map<string, Result<Action>>, cSteps: map<string, Result<Action>>, uSteps: map<string, Result<Action>>, i: nat)
    requires StepsAgree(dSteps, Delete, oldState, oldState, desired) && AllSucceed(dOrder, dSteps)
    requires StepsAgree(cSteps, Create, desired, oldState, desired) && AllSucceed(cOrder, cSteps)
    requires StepsAgree(uSteps, Update, desired, oldState, desired) && AllSucceed(uOrder, uSteps)
    requires i < |dOrder| + |cOrder| + |uOrder|
    ensures var a := (PhaseActions(dOrder, dSteps) + PhaseActions(cOrder, cSteps) + PhaseActions(uOrder, uSteps))[i];
      && (i < |dOrder| ==> dOrder[i] in oldState && a.kind == Delete && a.resourceId == oldState[dOrder[i]].id)
      && (|dOrder| <= i < |dOrder| + |cOrder| ==>
            cOrder[i - |dOrder|] in desired && a.kind == Create && a.resourceId == desired[cOrder[i - |dOrder|]].id)
      && (|dOrder| + |cOrder| <= i ==>
            uOrder[i - |dOrder| - |cOrder|] in desired && a.kind == Update
            && a.resourceId == desired[uOrder[i - |dOrder| - |cOrder|]].id)
  {
    var d, c, u := PhaseActions(dOrder, dSteps), PhaseActions(cOrder, cSteps), PhaseActions(uOrder, uSteps);
    ConcatIndex(d, c, u, i);
    if i < |dOrder| {
      PhaseActionsNamed(Delete, dOrder, dSteps, oldState, oldState, desired, i);
    } else if i < |dOrder| + |cOrder| {
      PhaseActionsNamed(Create, cOrder, cSteps, desired, oldState, desired, i - |dOrder|);
    } else {
      PhaseActionsNamed(Update, uOrder, uSteps, desired, oldState, desired, i - |dOrder| - |cOrder|);
    }
  }

  /**
   * The script lists the deletions, then the creations, then the updates,
   * each action naming the resource its phase handled at that position.
   */
  lemma ScriptOrder(oldState: Graph, desired: Graph, dOrder: seq<string>, cOrder: seq<string>, uOrder: seq<string>,
                    newState: Graph, script: string, i: nat)
    requires Succeeds(oldState, desired, dOrder, cOrder, uOrder, newState, script)
    requires i < |dOrder| + |cOrder| + |uOrder|
    ensures var a := ScriptActions(desired, oldState, dOrder, cOrder, uOrder)[i];
      && (i < |dOrder| ==> dOrder[i] in oldState && a.kind == Delete && a.resourceId == oldState[dOrder[i]].id)
      && (|dOrder| <= i < |dOrder| + |cOrder| ==>
            cOrder[i - |dOrder|] in desired && a.kind == Create && a.resourceId == desired[cOrder[i - |dOrder|]].id)
      && (|dOrder| + |cOrder| <= i ==>
            uOrder[i - |dOrder| - |cOrder|] in desired && a.kind == Update
            && a.resourceId == desired[uOrder[i - |dOrder| - |cOrder|]].id)
  {
    var p := PlanOf(desired, oldState);
    PhaseStepsAgree(Delete, p.deleted, oldState, oldState, desired);
    PhaseStepsAgree(Create, p.created, desired, oldState, desired);
    PhaseStepsAgree(Update, p.modified, desired, oldState, desired);
    PhasesInOrder(oldState, desired, dOrder, cOrder, uOrder,
      DeleteSteps(desired, oldState), CreateSteps(desired, oldState), UpdateSteps(desired, oldState), i);
  }

  /** In a walk of a layering, an id comes after every other id it references. */
  lemma WalkFollowsReferences(g: Graph, layers: seq<set<string>>, order: seq<string>, sel: set<string>, i: nat, j: nat)
    requires TopologicalSort(g) == Ok(layers) && Walks(order, layers, sel)
    requires i < |order| && j < |order| && order[i] in g
    requires order[j] in References(g[order[i]]) && order[j] != order[i]
    ensures j < i
  {
    var a := LayerOf(layers, order[i]);
    ReferenceTargetEarlier(g, layers, a, order[i], order[j]);
    var b :| 0 <= b < a && order[j] in layers[b];
    WalkOrder(order, layers, j, i, b, a);
  }

  /** A walk visits ids of an earlier layer first. */
  lemma WalkOrder(order: seq<string>, layers: seq<set<string>>, i: nat, j: nat, a: nat, c: nat)
    requires FollowsLayers(order, layers)
    requires i < |order| && j < |order| && i != j
    requires a < c < |layers| && order[i] in layers[a] && order[j] in layers[c]
    ensures i < j
  {
    assert j < i ==> c <= a;
  }

  /** A walk of the layers taken last layer first visits ids of a later layer first. */
  lemma ReverseWalkOrder(order: seq<string>, layers: seq<set<string>>, sel: set<string>, i: nat, j: nat, x: nat, y: nat)
    requires Walks(order, Reverse(layers), sel)
    requires i < |order| && j < |order| && i != j
    requires y < x < |layers| && order[i] in layers[x] && order[j] in layers[y]
    ensures i < j
  {
    var n := |layers|;
    var rev := Reverse(layers);
    assert order[i] in rev[n - 1 - x] && order[j] in rev[n - 1 - y];
    WalkOrder(order, rev, i, j, n - 1 - x, n - 1 - y);
  }

  /** In a walk of a layering taken last layer first, an id comes before every other id it references. */
  lemma ReverseWalkPrecedesReferences(g: Graph, layers: seq<set<string>>, order: seq<string>, sel: set<string>, i: nat, j: nat)
    requires TopologicalSort(g) == Ok(layers) && Walks(order, Reverse(layers), sel)
    requires i < |order| && j < |order| && order[i] in g
    requires order[j] in References(g[order[i]]) && order[j] != order[i]
    ensures i < j
  {
    var x := LayerOf(layers, order[i]);
    ReferenceTargetEarlier(g, layers, x, order[i], order[j]);
    var y :| 0 <= y < x && order[j] in layers[y];
    ReverseWalkOrder(order, layers, sel, i, j, x, y);
  }

  /** Creations respect references: a resource is created after every other created resource it references. */
  lemma CreationsFollowReferences(oldState: Graph, desired: Graph, dOrder: seq<string>, cOrder: seq<string>, uOrder: seq<string>,
                                  newState: Graph, script: string, i: nat, j: nat)
    requires Succeeds(oldState, desired, dOrder, cOrder, uOrder, newState, script)
    requires i < |cOrder| && j < |cOrder| && cOrder[i] in desired
    requires cOrder[j] in References(desired[cOrder[i]]) && cOrder[j] != cOrder[i]
    ensures j < i
  {
    WalkFollowsReferences(desired, TopologicalSort(desired).value, cOrder, PlanOf(desired, oldState).created, i, j);
  }

  /** Updates respect references in the same way. */
  lemma UpdatesFollowReferences(oldState: Graph, desired: Graph, dOrder: seq<string>, cOrder: seq<string>, uOrder: seq<string>,
                                newState: Graph, script: string, i: nat, j: nat)
    requires Succeeds(oldState, desired, dOrder, cOrder, uOrder, newState, script)
    requires i < |uOrder| && j < |uOrder| && uOrder[i] in desired
    requires uOrder[j] in References(desired[uOrder[i]]) && uOrder[j] != uOrder[i]
    ensures j < i
  {
    WalkFollowsReferences(desired, TopologicalSort(desired).value, uOrder, PlanOf(desired, oldState).modified, i, j);
  }

  /**
   * Deletions run against the references of the recorded state: a resource
   * is deleted before every other deleted resource it referenced.
   */
  lemma DeletionsPrecedeReferences(oldState: Graph, desired: Graph, dOrder: seq<string>, cOrder: seq<string>, uOrder: seq<string>,
                                   newState: Graph, script: string, i: nat, j: nat)
    requires Succeeds(oldState, desired, dOrder, cOrder, uOrder, newState, script)
    requires i < |dOrder| && j < |dOrder| && dOrder[i] in oldState
    requires dOrder[j] in References(oldState[dOrder[i]]) && dOrder[j] != dOrder[i]
    ensures i < j
  {
    ReverseWalkPrecedesReferences(oldState, TopologicalSort(oldState).value, dOrder, PlanOf(desired, oldState).deleted, i, j);
  }

  /**
   * A recreated id is deleted and created, never updated; an id only on the
   * desired side is only created, an id only on the recorded side only deleted.
   */
  lemma RecreatedIsDeletedThenCreated(oldState: Graph, desired: Graph, dOrder: seq<string>, cOrder: seq<string>, uOrder: seq<string>,
                                      newState: Graph, script: string, k: string)
    requires Succeeds(oldState, desired, dOrder, cOrder, uOrder, newState, script)
    ensures k in Recreated(desired, oldState) ==> k in dOrder && k in cOrder && k !in uOrder
    ensures k in desired && k !in oldState ==> k !in dOrder && k in cOrder && k !in uOrder
    ensures k !in desired && k in oldState ==> k in dOrder && k !in cOrder && k !in uOrder
  {
    var p := PlanOf(desired, oldState);
    PlanShape(desired, oldState);
    ReverseLayers(TopologicalSort(oldState).value);
    assert p.created <= Union(TopologicalSort(desired).value);
    assert p.modified <= Union(TopologicalSort(desired).value);
    assert p.deleted <= Union(Reverse(TopologicalSort(oldState).value));
  }

  /** A walk that selects nothing is empty. */
  lemma EmptyWalk(order: seq<string>, layers: seq<set<string>>)
    requires Walks(order, layers, {})
    ensures order == []
  {
    DistinctCard(order, {});
  }

  /** A walk of distinct ids visits as many ids as it selects. */
  lemma {:induction false} DistinctCard(order: seq<string>, ids: set<string>)
    requires Distinct(order) && forall k :: k in order <==> k in ids
    ensures |order| == |ids|
  {
    if order != [] {
      var rest := order[1..];
      assert forall k :: k in rest <==> k in ids - {order[0]} by {
        forall k ensures k in rest <==> k in ids - {order[0]} {
          if k in rest {
            var i :| 0 <= i < |rest| && rest[i] == k;
            assert order[i + 1] == k;
          }
          if k in ids - {order[0]} {
            var i :| 0 <= i < |order| && order[i] == k;
            assert i != 0 && rest[i - 1] == k;
          }
        }
      }
      DistinctCard(rest, ids - {order[0]});
    }
  }

  /** The script has one action per planned deletion, creation and update. */
  lemma ActionCount(oldState: Graph, desired: Graph, dOrder: seq<string>, cOrder: seq<string>, uOrder: seq<string>,
                    newState: Graph, script: string)
    requires Succeeds(oldState, desired, dOrder, cOrder, uOrder, newState, script)
    ensures var p := PlanOf(desired, oldState);
      |ScriptActions(desired, oldState, dOrder, cOrder, uOrder)| == |p.deleted| + |p.created| + |p.modified|
  {
    var p := PlanOf(desired, oldState);
    ReverseLayers(TopologicalSort(oldState).value);
    assert p.created <= Union(TopologicalSort(desired).value);
    assert p.modified <= Union(TopologicalSort(desired).value);
    assert p.deleted <= Union(Reverse(TopologicalSort(oldState).value));
    DistinctCard(dOrder, p.deleted);
    DistinctCard(cOrder, p.created);
    DistinctCard(uOrder, p.modified);
  }

  /**
   * Applying a desired graph to a recorded state with the same ids and the
   * same properties plans nothing: the script is empty and the desired graph
   * comes back without new statuses.
   */
  lemma UnchangedGraphEmptyScript(oldState: Graph, desired: Graph, dOrder: seq<string>, cOrder: seq<string>, uOrder: seq<string>,
                                  newState: Graph, script: string)
    requires desired.Keys == oldState.Keys
    requires forall k :: k in desired ==> desired[k].properties == oldState[k].properties
    requires Succeeds(oldState, desired, dOrder, cOrder, uOrder, newState, script)
    ensures dOrder == [] && cOrder == [] && uOrder == []
    ensures script == "" && newState == desired
  {
    SamePropertiesEmptyPlan(desired, oldState);
    ActionCount(oldState, desired, dOrder, cOrder, uOrder, newState, script);
    NothingPlannedNothingMarked(desired, oldState);
  }

  lemma NothingPlannedNothingMarked(desired: Graph, oldState: Graph)
    requires PlanOf(desired, oldState) == Plan({}, {}, {})
    ensures NewState(desired, oldState) == desired
  {
  }

  /** With the same ids and properties on both sides, `execute` raises only on a reference cycle. */
  lemma UnchangedGraphFailsOnlyOnCycle(oldState: Graph, desired: Graph)
    requires desired.Keys == oldState.Keys
    requires forall k :: k in desired ==> desired[k].properties == oldState[k].properties
    ensures Fails(oldState, desired) <==> TopologicalSort(desired).Err?
  {
    SortReadsOnlyProperties(desired, oldState);
    SamePropertiesEmptyPlan(desired, oldState);
    NothingPlannedNeverFails(desired, oldState);
  }

  lemma NothingPlannedNeverFails(desired: Graph, oldState: Graph)
    requires PlanOf(desired, oldState) == Plan({}, {}, {})
    ensures !SomeFails(DeleteSteps(desired, oldState))
    ensures !SomeFails(CreateSteps(desired, oldState))
    ensures !SomeFails(UpdateSteps(desired, oldState))
  {
  }

  /**
   * Running again against the state a successful run returned cannot fail,
   * emits an empty script and returns the desired graph unchanged.
   */
  lemma SecondRunChangesNothing(oldState: Graph, desired: Graph, dOrder: seq<string>, cOrder: seq<string>, uOrder: seq<string>,
                                newState: Graph, script: string)
    requires Succeeds(oldState, desired, dOrder, cOrder, uOrder, newState, script)
    ensures !Fails(newState, desired)
    ensures forall d2, c2, u2, state2, script2 :: Succeeds(newState, desired, d2, c2, u2, state2, script2) ==>
      script2 == "" && state2 == desired
  {
    UnchangedGraphFailsOnlyOnCycle(newState, desired);
    forall d2, c2, u2, state2, script2 | Succeeds(newState, desired, d2, c2, u2, state2, script2)
      ensures script2 == "" && state2 == desired
    {
      UnchangedGraphEmptyScript(newState, desired, d2, c2, u2, state2, script2);
    }
  }
}
