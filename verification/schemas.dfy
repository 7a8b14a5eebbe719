/**
 * Per-type property schemas and the validators that check a resource
 * dictionary against them (src/graphformation/schema.py).
 */
module Schemas {
  import opened Types

  /**
   * `Property.required`: either a bool, or a custom validator; the only
   * custom validator in the system is the one-of check over a list of names.
   */
  datatype Requirement = Required(flag: bool) | OneOf(names: seq<string>)

  /** `Property(required=…, mutable=…)`; `mutable` is never read by the engine. */
  datatype Property = Property(required: Requirement, mutable: bool)

  /** `Schema(resource_type, properties)`, the properties in declaration order. */
  datatype Schema = Schema(resourceType: string, properties: seq<(string, Property)>)

  /**
   * The one-of loop: it remembers the NAME of the last listed property whose
   * value is truthy (initially an empty, falsy, list), and the check fails when
   * what it remembers is falsy.
   */
  function LastTruthy(names: seq<string>, properties: map<string, Value>): (r: Option<string>)
    ensures r.None? <==> forall i :: 0 <= i < |names| ==> !(names[i] in properties && Truthy(properties[names[i]]))
    ensures r.Some? ==> r.value in names && r.value in properties && Truthy(properties[r.value])
  {
    if |names| == 0 then None
    else
      var rest := LastTruthy(names[1..], properties);
      if rest.Some? then rest
      else if names[0] in properties && Truthy(properties[names[0]]) then Some(names[0])
      else None
  }

  /** `_one_of_validator(resource, expected_properties)`. */
  function OneOfValidator(resource: ResourceRepr, expected: seq<string>): (r: Outcome)
    ensures r.Fail? ==> r.error == MissingOneOf(expected)
  {
    var has := LastTruthy(expected, resource.properties);
    if has.None? || has.value == "" then Fail(MissingOneOf(expected)) else Pass
  }

  /**
   * With non-empty property names (the only ones the schemas use), the one-of
   * check passes exactly when some listed property has a truthy value.
   */
  lemma OneOfValidatorMeaning(resource: ResourceRepr, expected: seq<string>)
    requires forall i :: 0 <= i < |expected| ==> expected[i] != ""
    ensures OneOfValidator(resource, expected).Pass? <==>
      exists i :: 0 <= i < |expected| && expected[i] in resource.properties && Truthy(resource.properties[expected[i]])
  {
    var has := LastTruthy(expected, resource.properties);
    if has.Some? {
      var i :| 0 <= i < |expected| && expected[i] == has.value;
    }
  }

  /** `_required_validator(resource, expected_property)`: absent (None) fails, anything else passes. */
  function RequiredValidator(resource: ResourceRepr, expected: string): (r: Outcome)
    ensures r.Pass? <==> expected in resource.properties
    ensures r.Fail? ==> r.error == MissingRequired(expected)
  {
    if Get(resource.properties, expected).None? then Fail(MissingRequired(expected)) else Pass
  }

  /** What one property definition demands of a resource. */
  predicate Satisfies(name: string, p: Property, resource: ResourceRepr)
  {
    match p.required
    case Required(flag) => flag ==> RequiredValidator(resource, name).Pass?
    case OneOf(names) => OneOfValidator(resource, names).Pass?
  }

  /** The loop of `Schema.validate` over the property definitions, in order; the first failure raises. */
  function CheckProperties(defs: seq<(string, Property)>, resource: ResourceRepr): (r: Outcome)
    ensures r.Pass? <==> forall i :: 0 <= i < |defs| ==> Satisfies(defs[i].0, defs[i].1, resource)
    ensures r.Fail? ==> exists i :: 0 <= i < |defs| && !Satisfies(defs[i].0, defs[i].1, resource)
  {
    if |defs| == 0 then Pass
    else
      var (name, p) := defs[0];
      var first := match p.required
        case Required(flag) => if flag then RequiredValidator(resource, name) else Pass
        case OneOf(names) => OneOfValidator(resource, names);
      if first.Fail? then first
      else
        var rest := CheckProperties(defs[1..], resource);
        assert forall i :: 1 <= i < |defs| ==> defs[i] == defs[1..][i - 1];
        rest
  }

  /** `Schema.validate(operation, resource)`. */
  function Validate(schema: Schema, operation: string, resource: ResourceRepr): (r: Outcome)
    ensures r.Pass? <==>
      && operation == "define"
      && resource.resourceType == schema.resourceType
      && forall i :: 0 <= i < |schema.properties| ==>
           Satisfies(schema.properties[i].0, schema.properties[i].1, resource)
    ensures operation != "define" ==> r == Fail(UnsupportedOperation(operation))
    ensures operation == "define" && resource.resourceType != schema.resourceType ==>
      r == Fail(WrongSchemaType(schema.resourceType, resource.resourceType))
  {
    if operation != "define" then Fail(UnsupportedOperation(operation))
    else if resource.resourceType != schema.resourceType then
      Fail(WrongSchemaType(schema.resourceType, resource.resourceType))
    else CheckProperties(schema.properties, resource)
  }

  /** `Schema.validate_definition(resource)`. */
  function ValidateDefinition(schema: Schema, resource: ResourceRepr): Outcome
  {
    Validate(schema, "define", resource)
  }

  const FileContent: seq<string> := ["source", "text"]

  function DirectorySchema(): Schema
  {
    Schema("directory", [
      ("location", Property(Required(true), false)),
      ("permissions", Property(Required(true), true))])
  }

  function FileSchema(): Schema
  {
    Schema("file", [
      ("filename", Property(Required(true), true)),
      ("parent", Property(Required(true), false)),
      ("source", Property(OneOf(FileContent), false)),
      ("text", Property(OneOf(FileContent), false))])
  }

  function DummyRefResourceSchema(): Schema
  {
    Schema("dummy_ref_resource", [
      ("mutable_parent", Property(Required(false), true)),
      ("immutable_parent", Property(Required(false), false))])
  }

  /** `schema.from_type(type_)`: one schema per known tag, an error for any other. */
  function FromType(resourceType: string): (r: Result<Schema>)
    ensures r.Ok? <==> resourceType in {"directory", "file", "dummy_ref_resource"}
    ensures r.Ok? ==> r.value.resourceType == resourceType
    ensures r.Err? ==> r.error == UnknownType(resourceType)
  {
    if resourceType == "directory" then Ok(DirectorySchema())
    else if resourceType == "file" then Ok(FileSchema())
    else if resourceType == "dummy_ref_resource" then Ok(DummyRefResourceSchema())
    else Err(UnknownType(resourceType))
  }

  /** A directory needs `location` and `permissions`; present with any value, the empty string included. */
  lemma DirectoryRequirements(resource: ResourceRepr)
    ensures ValidateDefinition(DirectorySchema(), resource).Pass? <==>
      && resource.resourceType == "directory"
      && "location" in resource.properties
      && "permissions" in resource.properties
  {
    var defs := DirectorySchema().properties;
    assert Satisfies(defs[0].0, defs[0].1, resource) <==> "location" in resource.properties;
    assert Satisfies(defs[1].0, defs[1].1, resource) <==> "permissions" in resource.properties;
  }

  /** A file needs `filename` and `parent`, and a truthy `source` or `text`. */
  lemma FileRequirements(resource: ResourceRepr)
    ensures ValidateDefinition(FileSchema(), resource).Pass? <==>
      && resource.resourceType == "file"
      && "filename" in resource.properties
      && "parent" in resource.properties
      && (|| ("source" in resource.properties && Truthy(resource.properties["source"]))
          || ("text" in resource.properties && Truthy(resource.properties["text"])))
  {
    var defs := FileSchema().properties;
    OneOfValidatorMeaning(resource, FileContent);
    assert Satisfies(defs[0].0, defs[0].1, resource) <==> "filename" in resource.properties;
    assert Satisfies(defs[1].0, defs[1].1, resource) <==> "parent" in resource.properties;
    assert Satisfies(defs[2].0, defs[2].1, resource) <==> OneOfValidator(resource, FileContent).Pass?;
    assert Satisfies(defs[3].0, defs[3].1, resource) <==> OneOfValidator(resource, FileContent).Pass?;
    assert FileContent[0] == "source" && FileContent[1] == "text";
    if "source" in resource.properties && Truthy(resource.properties["source"]) {
      assert FileContent[0] in resource.properties && Truthy(resource.properties[FileContent[0]]);
    }
    if "text" in resource.properties && Truthy(resource.properties["text"]) {
      assert FileContent[1] in resource.properties && Truthy(resource.properties[FileContent[1]]);
    }
  }

  /** A dummy_ref_resource demands nothing of its properties. */
  lemma DummyRefResourceRequirements(resource: ResourceRepr)
    ensures ValidateDefinition(DummyRefResourceSchema(), resource).Pass? <==>
      resource.resourceType == "dummy_ref_resource"
  {
    var defs := DummyRefResourceSchema().properties;
    assert Satisfies(defs[0].0, defs[0].1, resource);
    assert Satisfies(defs[1].0, defs[1].1, resource);
  }
}
