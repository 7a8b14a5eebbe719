/**
 * The values the engine passes around: property values, resource dictionaries
 * as they appear in a desired graph or a recorded state, and the errors the
 * Python code raises.
 */
module Types {

  /** The exceptions of the engine, one constructor per distinct cause. */
  datatype Error =
    | DuplicateId(id: string)               // spec.py: id already in GRAPH
    | ReservedId(id: string)                // spec.py: the id "!ref"
    | UnknownType(resourceType: string)     // no schema / no handler for a type tag
    | WrongSchemaType(expected: string, found: string)
    | UnsupportedOperation(operation: string)  // Schema.validate's `assert operation in ["define"]`
    | MissingRequired(property: string)
    | MissingOneOf(properties: seq<string>)
    | ReferenceCycle                        // toposort's CircularDependencyError
    | MissingKey(key: string)               // `props[key]` on an absent key
    | DanglingReference(id: string)         // ScriptCtx.get_ref: target not in the desired graph
    | NotAReference                         // ScriptCtx.get_ref on a value that is not {"!ref": id}
    | NoFileContent                         // File.create with neither text nor source
    | NotAString(property: string)          // os.path.join on a value that is not a str
    | UpdateNotSupported                    // File.update

  datatype Option<T> = None | Some(value: T)

  /** A value or the exception raised instead; usable with `:-`. */
  datatype Result<T> = Ok(value: T) | Err(error: Error) {
    predicate IsFailure() { Err? }

    function PropagateFailure<U>(): Result<U>
      requires Err?
    {
      Err(error)
    }

    function Extract(): T
      requires Ok?
    {
      value
    }
  }

  datatype Outcome = Pass | Fail(error: Error)

  /**
   * A property value once a declaration has been turned into a plain map:
   * a string, the reference marker `{"!ref": target}`, or a whole resource
   * embedded as `{"id": …, "resource_type": …, "properties": …}` (what
   * `Resource.json_repr` produces for a property whose value is a Resource).
   */
  datatype Value =
    | Str(s: string)
    | Ref(target: string)
    | Object(id: string, resourceType: string, properties: map<string, Value>)

  /** Python truthiness of a value: only the empty string is falsy. */
  predicate Truthy(v: Value)
  {
    !(v.Str? && v.s == "")
  }

  /**
   * A resource dictionary: `id`, `resource_type`, `properties`, and the
   * `status` / `computed_props` entries that `update_status` adds.
   */
  datatype ResourceRepr = ResourceRepr(
    id: string,
    resourceType: string,
    properties: map<string, Value>,
    status: Option<string>,
    computedProps: Option<map<string, Value>>)

  /** A desired graph or a recorded state: resource id to resource dictionary. */
  type Graph = map<string, ResourceRepr>

  /** `properties.get(name, None)`. */
  function Get(properties: map<string, Value>, name: string): (r: Option<Value>)
    ensures r.Some? <==> name in properties
    ensures r.Some? ==> r.value == properties[name]
  {
    if name in properties then Some(properties[name]) else None
  }

  /** `properties[name]`, which raises KeyError on an absent name. */
  function Lookup(properties: map<string, Value>, name: string): (r: Result<Value>)
    ensures r.Ok? <==> name in properties
    ensures r.Ok? ==> r.value == properties[name]
    ensures r.Err? ==> r.error == MissingKey(name)
  {
    if name in properties then Ok(properties[name]) else Err(MissingKey(name))
  }
}
