/**
 * The declaration side of graphformation: the global graph that a program
 * fills by calling `directory`, `file` and `dummy_ref_resource`, the JSON form
 * of that graph (`graph_repr`), and `execute_change_program`, which runs a
 * program on a fresh graph, hands its JSON form to the executor and puts the
 * previous graph back.
 *
 * The global dict `GRAPH` is the `Registry` class; a program (a Python
 * callable) is a sequence of declarations.
 */
module Spec {
  import opened Types
  import Schemas
  import Layering
  import Executor

  /** The ids no resource may take. */
  const ReservedWords: seq<string> := ["!ref"]

  /** `_verify_id`: the reserved marker cannot be a resource id. */
  function VerifyId(resourceId: string): (r: Outcome)
    ensures r.Fail? <==> resourceId == "!ref"
    ensures r.Fail? ==> r.error == ReservedId(resourceId)
  {
    if resourceId in ReservedWords then Fail(ReservedId(resourceId)) else Pass
  }

  /**
   * A property value as a program supplies it: `None`, a string, `ref(obj)`
   * (of which only the target's id is ever read), or a `Resource` object.
   */
  datatype PropertyValue =
    | Absent
    | Scalar(s: string)
    | RefTo(target: string)
    | Embedded(resource: Resource)

  /** A `Resource` object: id, type tag, properties as given, and the schema of its tag. */
  datatype Resource = Resource(
    id: string,
    resourceType: string,
    properties: map<string, PropertyValue>,
    schema: Schemas.Schema)

  /** `ref(obj)`. */
  function MakeRef(obj: Resource): PropertyValue
  {
    RefTo(obj.id)
  }

  /** `value.json_repr()` for a `Resource` or a `Ref`; any other value as it is. */
  function ValueRepr(v: PropertyValue): Value
    requires !v.Absent?
    decreases v, 1
  {
    match v
    case Scalar(s) => Str(s)
    case RefTo(t) => Ref(t)
    case Embedded(r) => Object(r.id, r.resourceType, PropertiesRepr(r))
  }

  /** The `properties` entry of `Resource.json_repr()`: None-valued properties dropped, the rest converted. */
  function PropertiesRepr(r: Resource): map<string, Value>
    decreases r, 0
  {
    map p | p in r.properties && !r.properties[p].Absent? :: ValueRepr(r.properties[p])
  }

  /** `Resource.json_repr()`: the id, the type tag and the converted properties; no status. */
  function JsonRepr(r: Resource): ResourceRepr
  {
    ResourceRepr(r.id, r.resourceType, PropertiesRepr(r), None, None)
  }

  /**
   * What `json_repr` writes: exactly `id`, `resource_type` and `properties`
   * (no status); a property is present iff it was given a value other than
   * None; a string is copied, `ref(obj)` becomes `{"!ref": obj's id}` and a
   * resource becomes its own JSON form.
   */
  lemma JsonReprMeaning(r: Resource)
    ensures JsonRepr(r).id == r.id && JsonRepr(r).resourceType == r.resourceType
    ensures JsonRepr(r).status.None? && JsonRepr(r).computedProps.None?
    ensures forall p :: p in JsonRepr(r).properties <==> p in r.properties && !r.properties[p].Absent?
    ensures forall p :: p in r.properties && r.properties[p].Scalar? ==>
      JsonRepr(r).properties[p] == Str(r.properties[p].s)
    ensures forall p :: p in r.properties && r.properties[p].RefTo? ==>
      JsonRepr(r).properties[p] == Ref(r.properties[p].target)
    ensures forall p :: p in r.properties && r.properties[p].Embedded? ==>
      var e := r.properties[p].resource;
      JsonRepr(r).properties[p] == Object(e.id, e.resourceType, JsonRepr(e).properties)
  {
    var props := PropertiesRepr(r);
    assert forall p :: p in r.properties && !r.properties[p].Absent? ==> props[p] == ValueRepr(r.properties[p]);
  }

  /** A reference made with `ref(obj)` is written as the marker `{"!ref": obj's id}`. */
  lemma RefIsMarker(obj: Resource)
    ensures ValueRepr(MakeRef(obj)) == Ref(obj.id)
  {
  }

  /** The ids a resource's declaration refers to directly, through `ref(obj)`. */
  function DeclaredTargets(r: Resource): set<string>
  {
    set p | p in r.properties && r.properties[p].RefTo? :: r.properties[p].target
  }

  /**
   * The executor orders a declared resource after exactly the targets of its
   * top-level `ref(obj)` values: an embedded resource, and any reference
   * inside it, adds no dependency.
   */
  lemma DeclaredDependencies(r: Resource)
    ensures Layering.References(JsonRepr(r)) == DeclaredTargets(r)
  {
    var j := JsonRepr(r);
    JsonReprMeaning(r);
    forall t | t in DeclaredTargets(r)
      ensures t in Layering.References(j)
    {
      var p :| p in r.properties && r.properties[p].RefTo? && r.properties[p].target == t;
      assert j.properties[p] == Ref(t);
    }
    forall t | t in Layering.References(j)
      ensures t in DeclaredTargets(r)
    {
      var p :| p in j.properties && j.properties[p] == Ref(t);
      assert r.properties[p].RefTo?;
    }
  }

  /** The property map `directory(...)` passes to `_define`; `permissions` defaults to "700". */
  function DirectoryProperties(location: PropertyValue, permissions: PropertyValue := Scalar("700")): map<string, PropertyValue>
  {
    map["location" := location, "permissions" := permissions]
  }

  /** The property map `file(...)` passes to `_define`; `permissions` defaults to "600", the rest to None. */
  function FileProperties(
    parent: PropertyValue,
    filename: PropertyValue := Absent,
    text: PropertyValue := Absent,
    source: PropertyValue := Absent,
    permissions: PropertyValue := Scalar("600")): map<string, PropertyValue>
  {
    map["parent" := parent, "filename" := filename, "text" := text, "source" := source, "permissions" := permissions]
  }

  /** The property map `dummy_ref_resource(...)` passes to `_define`; both parents default to None. */
  function DummyRefResourceProperties(mutableParent: PropertyValue := Absent, immutableParent: PropertyValue := Absent): map<string, PropertyValue>
  {
    map["mutable_parent" := mutableParent, "immutable_parent" := immutableParent]
  }

  /** The default permissions: "700" for a directory, "600" for a file. */
  lemma DefaultPermissions(location: PropertyValue, parent: PropertyValue)
    ensures DirectoryProperties(location)["permissions"] == Scalar("700")
    ensures FileProperties(parent)["permissions"] == Scalar("600")
    ensures FileProperties(parent)["filename"] == Absent
  {
  }

  /** `resource.schema.validate_definition(resource.json_repr())`. */
  function Check(r: Resource): Outcome
  {
    Schemas.ValidateDefinition(r.schema, JsonRepr(r))
  }

  /** Whether a resource's JSON form passes its own schema's check. */
  predicate Conforms(r: Resource)
  {
    Check(r).Pass?
  }

  /** Whether a supplied value is truthy once converted: given, and not the empty string. */
  predicate Given(v: PropertyValue)
  {
    !v.Absent? && v != Scalar("")
  }

  /** A declared directory is valid iff neither its location nor its permissions is None. */
  lemma DirectoryConforms(resourceId: string, location: PropertyValue, permissions: PropertyValue)
    ensures Conforms(Resource(resourceId, "directory", DirectoryProperties(location, permissions), Schemas.DirectorySchema()))
      <==> !location.Absent? && !permissions.Absent?
  {
    var r := Resource(resourceId, "directory", DirectoryProperties(location, permissions), Schemas.DirectorySchema());
    JsonReprMeaning(r);
    Schemas.DirectoryRequirements(JsonRepr(r));
  }

  /**
   * A declared file is valid iff its parent and filename are not None and its
   * text or its source is truthy. Left at its default (None), the filename
   * makes every file declaration fail `graph_repr`.
   */
  lemma FileConforms(
    resourceId: string, parent: PropertyValue, filename: PropertyValue,
    text: PropertyValue, source: PropertyValue, permissions: PropertyValue)
    ensures Conforms(Resource(resourceId, "file", FileProperties(parent, filename, text, source, permissions), Schemas.FileSchema()))
      <==> !parent.Absent? && !filename.Absent? && (Given(text) || Given(source))
  {
    FilePropertiesAt(parent, filename, text, source, permissions);
    var r := Resource(resourceId, "file", FileProperties(parent, filename, text, source, permissions), Schemas.FileSchema());
    var j := JsonRepr(r);
    ReprAt(r, "parent");
    ReprAt(r, "filename");
    ReprAt(r, "text");
    ReprAt(r, "source");
    Schemas.FileRequirements(j);
  }

  /** The entries of `file(...)`'s property map. */
  lemma FilePropertiesAt(
    parent: PropertyValue, filename: PropertyValue, text: PropertyValue, source: PropertyValue, permissions: PropertyValue)
    ensures var m := FileProperties(parent, filename, text, source, permissions);
      && "parent" in m && m["parent"] == parent
      && "filename" in m && m["filename"] == filename
      && "text" in m && m["text"] == text
      && "source" in m && m["source"] == source
  {
  }

  /** A given property appears in the JSON form converted; a None-valued one does not appear. */
  lemma ReprAt(r: Resource, p: string)
    requires p in r.properties
    ensures p in JsonRepr(r).properties <==> !r.properties[p].Absent?
    ensures !r.properties[p].Absent? ==> JsonRepr(r).properties[p] == ValueRepr(r.properties[p])
    ensures r.properties[p] == Scalar("") ==> !Truthy(JsonRepr(r).properties[p])
    ensures Given(r.properties[p]) ==> Truthy(JsonRepr(r).properties[p])
  {
  }

  /** A declared dummy_ref_resource is always valid, whatever its parents. */
  lemma DummyRefResourceConforms(resourceId: string, mutableParent: PropertyValue, immutableParent: PropertyValue)
    ensures Conforms(Resource(resourceId, "dummy_ref_resource",
      DummyRefResourceProperties(mutableParent, immutableParent), Schemas.DummyRefResourceSchema()))
  {
    var r := Resource(resourceId, "dummy_ref_resource",
      DummyRefResourceProperties(mutableParent, immutableParent), Schemas.DummyRefResourceSchema());
    Schemas.DummyRefResourceRequirements(JsonRepr(r));
  }

  /**
   * What `_define(resourceId, resourceType, properties)` yields against the
   * graph `graph`: the schema lookup comes first, then the reserved-id check
   * of the `Resource` constructor, then the duplicate check of `_add_to_graph`.
   */
  function Definition(graph: map<string, Resource>, resourceId: string, resourceType: string,
                      properties: map<string, PropertyValue>): (r: Result<Resource>)
    ensures r.Ok? <==> Schemas.FromType(resourceType).Ok? && resourceId != "!ref" && resourceId !in graph
    ensures Schemas.FromType(resourceType).Err? ==> r == Err(UnknownType(resourceType))
    ensures Schemas.FromType(resourceType).Ok? && resourceId == "!ref" ==> r == Err(ReservedId(resourceId))
    ensures Schemas.FromType(resourceType).Ok? && resourceId != "!ref" && resourceId in graph ==>
      r == Err(DuplicateId(resourceId))
    ensures r.Ok? ==> (r.value.id == resourceId && r.value.resourceType == resourceType
      && r.value.properties == properties && Schemas.FromType(resourceType) == Ok(r.value.schema))
  {
    var schema :- Schemas.FromType(resourceType);
    if VerifyId(resourceId).Fail? then Err(VerifyId(resourceId).error)
    else if resourceId in graph then Err(DuplicateId(resourceId))
    else Ok(Resource(resourceId, resourceType, properties, schema))
  }

  /**
   * The graph's bookkeeping: `order` lists every id once, in declaration
   * order (the dict's insertion order); each resource sits under its own id,
   * never under the reserved id, and carries the schema of its tag.
   */
  predicate Consistent(graph: map<string, Resource>, order: seq<string>)
  {
    && (forall i :: 0 <= i < |order| ==> order[i] in graph)
    && (forall k :: k in graph ==> k in order)
    && (forall i, j :: 0 <= i < j < |order| ==> order[i] != order[j])
    && (forall k :: k in graph ==> graph[k].id == k)
    && "!ref" !in graph
  }

  /** A successful `_define` keeps the bookkeeping. */
  lemma DefinitionKeepsConsistent(graph: map<string, Resource>, order: seq<string>, resourceId: string,
                                  resourceType: string, properties: map<string, PropertyValue>)
    requires Consistent(graph, order)
    requires Definition(graph, resourceId, resourceType, properties).Ok?
    ensures Consistent(graph[resourceId := Definition(graph, resourceId, resourceType, properties).value],
                       order + [resourceId])
  {
    var g := graph[resourceId := Definition(graph, resourceId, resourceType, properties).value];
    var o := order + [resourceId];
    forall i | 0 <= i < |o|
      ensures o[i] in g
    {
      if i < |order| { assert o[i] == order[i]; }
    }
    forall k | k in g
      ensures k in o
    {
      if k != resourceId {
        var i :| 0 <= i < |order| && order[i] == k;
        assert o[i] == k;
      } else {
        assert o[|order|] == k;
      }
    }
  }

  /**
   * The JSON form of the graph: each resource's `json_repr()` under its id.
   * `graph_repr` returns this when every resource is valid.
   */
  function Repr(graph: map<string, Resource>): Graph
  {
    map k | k in graph :: JsonRepr(graph[k])
  }

  /** The JSON form has exactly the graph's ids, and each entry carries the id it is filed under. */
  lemma ReprKeyedById(graph: map<string, Resource>, order: seq<string>)
    requires Consistent(graph, order)
    ensures Repr(graph).Keys == graph.Keys
    ensures forall k :: k in Repr(graph) ==> Repr(graph)[k].id == k && Repr(graph)[k].status.None?
  {
  }

  /** The checks `graph_repr` makes, in declaration order. */
  function Checks(graph: map<string, Resource>, order: seq<string>): (checks: seq<Outcome>)
    requires forall i :: 0 <= i < |order| ==> order[i] in graph
    ensures |checks| == |order|
    ensures forall i :: 0 <= i < |order| ==> checks[i] == Check(graph[order[i]])
  {
    seq(|order|, i requires 0 <= i < |order| => Check(graph[order[i]]))
  }

  /** One more step of `graph_repr`'s walk files the next resource's JSON form under its id. */
  lemma ReprStep(graph: map<string, Resource>, order: seq<string>, json: Graph, i: nat)
    requires Consistent(graph, order) && i < |order|
    requires forall k :: k in json <==> k in order[..i]
    requires forall k :: k in json ==> k in graph && json[k] == JsonRepr(graph[k])
    ensures var next := json[order[i] := JsonRepr(graph[order[i]])];
      && (forall k :: k in next <==> k in order[..i + 1])
      && (forall k :: k in next ==> k in graph && next[k] == JsonRepr(graph[k]))
  {
    IdsPrefix(order, i);
  }

  /** A map holding every listed id's JSON form, and nothing else, is the graph's JSON form. */
  lemma ReprOfAll(graph: map<string, Resource>, order: seq<string>, json: Graph)
    requires Consistent(graph, order)
    requires forall k :: k in json <==> k in order
    requires forall k :: k in json ==> k in graph && json[k] == JsonRepr(graph[k])
    ensures json == Repr(graph)
  {
    forall k | k in graph
      ensures k in json
    {
      var j :| 0 <= j < |order| && order[j] == k;
    }
  }

  /**
   * The error raised by a walk over `checks` that stops at the first failing
   * one: that check's error; None when all pass.
   */
  function FirstFailure(checks: seq<Outcome>): (e: Option<Error>)
    ensures e.None? <==> forall i :: 0 <= i < |checks| ==> checks[i].Pass?
    ensures e.Some? ==> exists i :: (0 <= i < |checks|
      && (forall j :: 0 <= j < i ==> checks[j].Pass?)
      && checks[i] == Fail(e.value))
    decreases |checks|
  {
    if checks == [] then None
    else if checks[0].Fail? then Some(checks[0].error)
    else
      var rest := FirstFailure(checks[1..]);
      assert forall i :: 1 <= i < |checks| ==> checks[i] == checks[1..][i - 1];
      if rest.Some? then
        var i :| 0 <= i < |checks[1..]|
          && (forall j :: 0 <= j < i ==> checks[1..][j].Pass?)
          && checks[1..][i] == Fail(rest.value);
        assert checks[i + 1] == Fail(rest.value);
        rest
      else
        rest
  }

  /** One step of a walk over `checks`: a failing check is the first failure, a passing one is passed over. */
  lemma FirstFailureStep(checks: seq<Outcome>, i: nat)
    requires i < |checks|
    ensures checks[i].Fail? ==> FirstFailure(checks[i..]) == Some(checks[i].error)
    ensures checks[i].Pass? ==> FirstFailure(checks[i..]) == FirstFailure(checks[i + 1..])
  {
    assert checks[i..][0] == checks[i];
    assert checks[i..][1..] == checks[i + 1..];
  }

  /** `graph_repr` succeeds iff every resource in the graph is valid. */
  lemma FirstFailureCoversGraph(graph: map<string, Resource>, order: seq<string>)
    requires Consistent(graph, order)
    ensures FirstFailure(Checks(graph, order)).None? <==> forall k :: k in graph ==> Conforms(graph[k])
  {
    var checks := Checks(graph, order);
    if FirstFailure(checks).None? {
      forall k | k in graph
        ensures Conforms(graph[k])
      {
        var i :| 0 <= i < |order| && order[i] == k;
        assert checks[i].Pass?;
      }
    } else {
      var i :| 0 <= i < |checks| && checks[i].Fail?;
      assert order[i] in graph && !Conforms(graph[order[i]]);
    }
  }

  /** A program: the calls to `directory`, `file` and `dummy_ref_resource` it makes, in order. */
  datatype Declaration =
    | DeclareDirectory(resourceId: string, location: PropertyValue, permissions: PropertyValue)
    | DeclareFile(resourceId: string, parent: PropertyValue, filename: PropertyValue,
                  text: PropertyValue, source: PropertyValue, permissions: PropertyValue)
    | DeclareDummyRefResource(resourceId: string, mutableParent: PropertyValue, immutableParent: PropertyValue)
  {
    /** The type tag the declaration passes to `_define`. */
    function Tag(): string
    {
      match this
      case DeclareDirectory(_, _, _) => "directory"
      case DeclareFile(_, _, _, _, _, _) => "file"
      case DeclareDummyRefResource(_, _, _) => "dummy_ref_resource"
    }

    /** The property map the declaration passes to `_define`. */
    function Properties(): map<string, PropertyValue>
    {
      match this
      case DeclareDirectory(_, location, permissions) => DirectoryProperties(location, permissions)
      case DeclareFile(_, parent, filename, text, source, permissions) =>
        FileProperties(parent, filename, text, source, permissions)
      case DeclareDummyRefResource(_, mutableParent, immutableParent) =>
        DummyRefResourceProperties(mutableParent, immutableParent)
    }
  }

  /**
   * The graph and declaration order after running `program` from `graph` and
   * `order`, or the error of the first declaration that raises. A run to the
   * end keeps the bookkeeping, appends exactly the declared ids to the order,
   * and loses nothing declared before.
   */
  function Run(graph: map<string, Resource>, order: seq<string>, program: seq<Declaration>)
    : (r: Result<(map<string, Resource>, seq<string>)>)
    ensures Consistent(graph, order) && r.Ok? ==> Consistent(r.value.0, r.value.1)
    ensures r.Ok? ==> r.value.1 == order + DeclaredIds(program)
    ensures r.Ok? ==> forall k :: k in graph ==> k in r.value.0 && r.value.0[k] == graph[k]
    decreases |program|
  {
    if program == [] then Ok((graph, order))
    else
      var d := program[0];
      var resource :- Definition(graph, d.resourceId, d.Tag(), d.Properties());
      var r := Run(graph[d.resourceId := resource], order + [d.resourceId], program[1..]);
      IdsAppend(order, d.resourceId, DeclaredIds(program[1..]));
      if Consistent(graph, order) then
        DefinitionKeepsConsistent(graph, order, d.resourceId, d.Tag(), d.Properties());
        r
      else r
  }

  /** Appending one id, then the rest, is appending them all at once. */
  lemma IdsAppend(order: seq<string>, id: string, rest: seq<string>)
    ensures order + [id] + rest == order + ([id] + rest)
  {
  }

  /** A prefix one id longer. */
  lemma IdsPrefix(order: seq<string>, i: nat)
    requires i < |order|
    ensures order[..i + 1] == order[..i] + [order[i]]
  {
  }

  /**
   * The desired graph a program yields: its declarations run on an empty
   * graph, then the JSON form of every resource, or the first error raised
   * on the way.
   */
  function Desired(program: seq<Declaration>): Result<Graph>
  {
    var (graph, order) :- Run(map[], [], program);
    match FirstFailure(Checks(graph, order))
    case Some(e) => Err(e)
    case None => Ok(Repr(graph))
  }

  /**
   * A program has a desired graph iff its declarations all run and every
   * declared resource is valid.
   */
  lemma DesiredIff(program: seq<Declaration>)
    ensures Desired(program).Ok? <==>
      Run(map[], [], program).Ok? && forall k :: k in Run(map[], [], program).value.0 ==> Conforms(Run(map[], [], program).value.0[k])
  {
    assert Consistent(map[], []);
    var run := Run(map[], [], program);
    if run.Ok? {
      FirstFailureCoversGraph(run.value.0, run.value.1);
    }
  }

  /** A program's desired graph holds exactly the declared ids, each filed under a resource of that id. */
  lemma DesiredDeclares(program: seq<Declaration>)
    requires Desired(program).Ok?
    ensures forall k :: k in Desired(program).value <==> k in DeclaredIds(program)
    ensures forall k :: k in Desired(program).value ==> Desired(program).value[k].id == k
  {
    assert Consistent(map[], []);
    var run := Run(map[], [], program).value;
    assert run.1 == DeclaredIds(program) by {
      assert [] + DeclaredIds(program) == DeclaredIds(program);
    }
    ReprListed(run.0, run.1);
  }

  /** The JSON form of a consistent graph lists exactly the ids in its order, each entry under its own id. */
  lemma ReprListed(graph: map<string, Resource>, order: seq<string>)
    requires Consistent(graph, order)
    ensures forall k :: k in Repr(graph) <==> k in order
    ensures forall k :: k in Repr(graph) ==> Repr(graph)[k].id == k
  {
    forall k | k in order
      ensures k in graph
    {
      var i :| 0 <= i < |order| && order[i] == k;
    }
  }

  /** The ids a program declares, in order. */
  function DeclaredIds(program: seq<Declaration>): (ids: seq<string>)
    ensures |ids| == |program|
    ensures forall i :: 0 <= i < |program| ==> ids[i] == program[i].resourceId
  {
    if program == [] then [] else [program[0].resourceId] + DeclaredIds(program[1..])
  }

  /** A program that declares the same id twice raises. */
  lemma {:induction false} RepeatedIdFails(graph: map<string, Resource>, order: seq<string>,
                                            program: seq<Declaration>, i: nat, j: nat)
    requires i < j < |program| && program[i].resourceId == program[j].resourceId
    ensures Run(graph, order, program).Err?
    decreases |program|
  {
    var d := program[0];
    var step := Definition(graph, d.resourceId, d.Tag(), d.Properties());
    if step.Ok? {
      var g := graph[d.resourceId := step.value];
      if i == 0 {
        RedeclaredFails(g, order + [d.resourceId], program[1..], j - 1);
      } else {
        RepeatedIdFails(g, order + [d.resourceId], program[1..], i - 1, j - 1);
      }
    }
  }

  /** Once an id is in the graph, a program that declares it again raises. */
  lemma {:induction false} RedeclaredFails(graph: map<string, Resource>, order: seq<string>,
                                            program: seq<Declaration>, j: nat)
    requires j < |program| && program[j].resourceId in graph
    ensures Run(graph, order, program).Err?
    decreases |program|
  {
    var d := program[0];
    var step := Definition(graph, d.resourceId, d.Tag(), d.Properties());
    if step.Ok? {
      assert j != 0;
      RedeclaredFails(graph[d.resourceId := step.value], order + [d.resourceId], program[1..], j - 1);
    }
  }

  /**
   * A program built from the three declaration functions never meets an
   * unknown type: it raises only for the reserved id or a repeated id.
   */
  lemma {:induction false} RunErrors(graph: map<string, Resource>, order: seq<string>, program: seq<Declaration>)
    requires Run(graph, order, program).Err?
    ensures Run(graph, order, program).error.ReservedId? || Run(graph, order, program).error.DuplicateId?
    decreases |program|
  {
    var d := program[0];
    var step := Definition(graph, d.resourceId, d.Tag(), d.Properties());
    if step.Ok? {
      RunErrors(graph[d.resourceId := step.value], order + [d.resourceId], program[1..]);
    }
  }

  /** The module-level `GRAPH` dict, with its insertion order. */
  class Registry {
    var graph: map<string, Resource>
    var order: seq<string>

    ghost predicate Valid()
      reads this
    {
      Consistent(graph, order)
    }

    /** `GRAPH = {}`. */
    constructor()
      ensures graph == map[] && order == []
      ensures Valid()
    {
      graph := map[];
      order := [];
    }

    /** `_add_to_graph(obj)`: a second resource under an id already taken raises; otherwise exactly that entry is added. */
    method AddToGraph(obj: Resource) returns (out: Outcome)
      modifies this
      ensures out.Fail? <==> obj.id in old(graph)
      ensures out.Fail? ==> out.error == DuplicateId(obj.id) && graph == old(graph) && order == old(order)
      ensures out.Pass? ==> graph == old(graph)[obj.id := obj] && order == old(order) + [obj.id]
    {
      if obj.id in graph {
        return Fail(DuplicateId(obj.id));
      }
      graph := graph[obj.id := obj];
      order := order + [obj.id];
      out := Pass;
    }

    /**
     * `_define(resourceId, resourceType, properties)`: the schema is looked
     * up before anything else, so an unknown type raises with the graph
     * untouched; then the id is checked, then the resource is added.
     */
    method Define(resourceId: string, resourceType: string, properties: map<string, PropertyValue>)
      returns (out: Result<Resource>)
      requires Valid()
      modifies this
      ensures out == Definition(old(graph), resourceId, resourceType, properties)
      ensures out.Err? ==> graph == old(graph) && order == old(order)
      ensures out.Ok? ==> graph == old(graph)[resourceId := out.value] && order == old(order) + [resourceId]
      ensures Valid()
    {
      var schema := Schemas.FromType(resourceType);
      if schema.Err? {
        return Err(schema.error);
      }
      var check := VerifyId(resourceId);
      if check.Fail? {
        return Err(check.error);
      }
      var resource := Resource(resourceId, resourceType, properties, schema.value);
      var added := AddToGraph(resource);
      if added.Fail? {
        return Err(added.error);
      }
      DefinitionKeepsConsistent(old(graph), old(order), resourceId, resourceType, properties);
      out := Ok(resource);
    }

    /** `directory(resource_id=…, location=…, permissions="700")`. */
    method Directory(resourceId: string, location: PropertyValue, permissions: PropertyValue := Scalar("700"))
      returns (out: Result<Resource>)
      requires Valid()
      modifies this
      ensures out == Definition(old(graph), resourceId, "directory", DirectoryProperties(location, permissions))
      ensures out.Err? ==> graph == old(graph) && order == old(order)
      ensures out.Ok? ==> graph == old(graph)[resourceId := out.value] && order == old(order) + [resourceId]
      ensures Valid()
    {
      out := Define(resourceId, "directory", DirectoryProperties(location, permissions));
    }

    /** `file(resource_id=…, parent=…, filename=None, text=None, source=None, permissions="600")`. */
    method File(resourceId: string, parent: PropertyValue, filename: PropertyValue := Absent,
                text: PropertyValue := Absent, source: PropertyValue := Absent,
                permissions: PropertyValue := Scalar("600"))
      returns (out: Result<Resource>)
      requires Valid()
      modifies this
      ensures out == Definition(old(graph), resourceId, "file", FileProperties(parent, filename, text, source, permissions))
      ensures out.Err? ==> graph == old(graph) && order == old(order)
      ensures out.Ok? ==> graph == old(graph)[resourceId := out.value] && order == old(order) + [resourceId]
      ensures Valid()
    {
      out := Define(resourceId, "file", FileProperties(parent, filename, text, source, permissions));
    }

    /** `dummy_ref_resource(resource_id=…, mutable_parent=None, immutable_parent=None)`. */
    method DummyRefResource(resourceId: string, mutableParent: PropertyValue := Absent,
                            immutableParent: PropertyValue := Absent)
      returns (out: Result<Resource>)
      requires Valid()
      modifies this
      ensures out == Definition(old(graph), resourceId, "dummy_ref_resource",
        DummyRefResourceProperties(mutableParent, immutableParent))
      ensures out.Err? ==> graph == old(graph) && order == old(order)
      ensures out.Ok? ==> graph == old(graph)[resourceId := out.value] && order == old(order) + [resourceId]
      ensures Valid()
    {
      out := Define(resourceId, "dummy_ref_resource", DummyRefResourceProperties(mutableParent, immutableParent));
    }

    /** Runs one declaration through its declaration function. */
    method Declare(d: Declaration) returns (out: Result<Resource>)
      requires Valid()
      modifies this
      ensures out == Definition(old(graph), d.resourceId, d.Tag(), d.Properties())
      ensures out.Err? ==> graph == old(graph) && order == old(order)
      ensures out.Ok? ==> graph == old(graph)[d.resourceId := out.value] && order == old(order) + [d.resourceId]
      ensures Valid()
    {
      match d
      case DeclareDirectory(resourceId, location, permissions) =>
        out := Directory(resourceId, location, permissions);
      case DeclareFile(resourceId, parent, filename, text, source, permissions) =>
        out := File(resourceId, parent, filename, text, source, permissions);
      case DeclareDummyRefResource(resourceId, mutableParent, immutableParent) =>
        out := DummyRefResource(resourceId, mutableParent, immutableParent);
    }

    /** `f()`: the program's declarations, one after the other, up to the first that raises. */
    method RunProgram(program: seq<Declaration>) returns (out: Outcome)
      requires Valid()
      modifies this
      ensures out.Pass? <==> Run(old(graph), old(order), program).Ok?
      ensures out.Fail? ==> out.error == Run(old(graph), old(order), program).error
      ensures out.Pass? ==> (graph, order) == Run(old(graph), old(order), program).value
      ensures Valid()
    {
      var i := 0;
      while i < |program|
        invariant 0 <= i <= |program|
        invariant Valid()
        invariant Run(old(graph), old(order), program) == Run(graph, order, program[i..])
      {
        assert program[i..][1..] == program[i + 1..];
        var declared := Declare(program[i]);
        if declared.Err? {
          return Fail(declared.error);
        }
        i := i + 1;
      }
      out := Pass;
    }

    /**
     * `graph_repr()`: walks the graph in declaration order, files each
     * resource's JSON form under its id and checks it against the resource's
     * schema, raising at the first that fails.
     */
    method GraphRepr() returns (r: Result<Graph>)
      requires Valid()
      ensures r.Err? <==> FirstFailure(Checks(graph, order)).Some?
      ensures r.Err? ==> r.error == FirstFailure(Checks(graph, order)).value
      ensures r.Ok? ==> r.value == Repr(graph)
    {
      var json: Graph := map[];
      var i := 0;
      while i < |order|
        invariant 0 <= i <= |order|
        invariant forall k :: k in json <==> k in order[..i]
        invariant forall k :: k in json ==> k in graph && json[k] == JsonRepr(graph[k])
        invariant FirstFailure(Checks(graph, order)) == FirstFailure(Checks(graph, order)[i..])
      {
        var resourceId := order[i];
        var resource := graph[resourceId];
        ReprStep(graph, order, json, i);
        json := json[resourceId := JsonRepr(resource)];
        var check := Schemas.ValidateDefinition(resource.schema, json[resourceId]);
        FirstFailureStep(Checks(graph, order), i);
        if check.Fail? {
          return Err(check.error);
        }
        i := i + 1;
      }
      assert order[..i] == order;
      ReprOfAll(graph, order, json);
      r := Ok(json);
    }

    /** The body of `execute_change_program` up to the executor: `f()`, then `graph_repr()`, on an empty graph. */
    method BuildDesired(program: seq<Declaration>) returns (json: Result<Graph>)
      requires graph == map[] && order == []
      modifies this
      ensures json == Desired(program)
    {
      var ran := RunProgram(program);
      if ran.Fail? {
        return Err(ran.error);
      }
      json := GraphRepr();
    }

    /**
     * `execute_change_program(f, old_state)`: runs the program on an empty
     * graph, takes the graph's JSON form, hands it to the executor, and puts
     * the previous graph back whether or not any of these raises.
     */
    method ExecuteChangeProgram(program: seq<Declaration>, oldState: Graph)
      returns (result: Result<(Graph, string)>, ghost dOrder: seq<string>, ghost cOrder: seq<string>, ghost uOrder: seq<string>)
      modifies this
      ensures graph == old(graph) && order == old(order)
      ensures Desired(program).Err? ==> result == Err(Desired(program).error)
      ensures Desired(program).Ok? ==> (result.Err? <==> Executor.Fails(oldState, Desired(program).value))
      ensures Desired(program).Ok? && result.Ok? ==>
        Executor.Succeeds(oldState, Desired(program).value, dOrder, cOrder, uOrder, result.value.0, result.value.1)
    {
      dOrder, cOrder, uOrder := [], [], [];
      var saveGraph, saveOrder := graph, order;
      graph, order := map[], [];
      var json := BuildDesired(program);
      if json.Err? {
        result := Err(json.error);
      } else {
        result, dOrder, cOrder, uOrder := Executor.Execute(oldState, json.value);
      }
      graph, order := saveGraph, saveOrder;
    }
  }
}
