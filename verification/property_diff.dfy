/**
 * Property-by-property comparison of two versions of a resource
 * (executor.py `_resource_diff`).
 */
module PropertyDiff {
  import opened Types
  import opened Strings
  import opened Text

  /** One `{"property", "old_value", "new_value"}` entry; `None` stands for an absent property. */
  datatype Change = Change(oldValue: Option<Value>, newValue: Option<Value>)

  /**
   * `_resource_diff(new_resource, old_resource)`: one entry per property name of
   * either resource whose values differ, an absent property reading as None.
   * The Python list comes out in set-iteration order; here it is keyed by name.
   */
  function ResourceDiff(newResource: ResourceRepr, oldResource: ResourceRepr): (d: map<string, Change>)
    ensures forall p :: p in d <==>
      (p in oldResource.properties || p in newResource.properties)
      && Get(oldResource.properties, p) != Get(newResource.properties, p)
    ensures forall p :: p in d ==>
      d[p] == Change(Get(oldResource.properties, p), Get(newResource.properties, p))
  {
    var names := oldResource.properties.Keys + newResource.properties.Keys;
    map p | p in names && Get(oldResource.properties, p) != Get(newResource.properties, p)
      :: Change(Get(oldResource.properties, p), Get(newResource.properties, p))
  }

  /** The diff is empty exactly when the two property maps are equal; status and type play no part. */
  lemma DiffEmptyIffSameProperties(newResource: ResourceRepr, oldResource: ResourceRepr)
    ensures ResourceDiff(newResource, oldResource) == map[] <==> newResource.properties == oldResource.properties
  {
    var d := ResourceDiff(newResource, oldResource);
    var n, o := newResource.properties, oldResource.properties;
    if d == map[] {
      forall p | p in n || p in o ensures p in n && p in o && n[p] == o[p] {
        assert p !in d;
        assert Get(o, p) == Get(n, p);
      }
      assert n.Keys == o.Keys;
    } else {
      var p :| p in d;
      assert Get(o, p) != Get(n, p);
    }
  }

  /** `json.dumps(changed_properties, sort_keys=True)`, entries in property-name order. */
  function ChangesJson(d: map<string, Change>): string
  {
    var names := SortedKeys(d.Keys);
    "[" + Join(", ", seq(|names|, i requires 0 <= i < |names| =>
      "{\"new_value\": " + OptionJson(d[names[i]].newValue)
        + ", \"old_value\": " + OptionJson(d[names[i]].oldValue)
        + ", \"property\": " + Quote(names[i]) + "}")) + "]"
  }
}
