/**
 * How values become text in the emitted commands: Python's `str()` of a
 * property value (what `"{…}".format(…)` inserts) and `json.dumps(…,
 * sort_keys=True)` of a resource or of a diff (the DummyRefResource commands).
 * `repr()` quotes and escapes strings as Python does for ASCII text; the JSON
 * text writes strings between double quotes without escaping.
 */
module Text {
  import opened Types
  import opened Strings

  function Quote(s: string): string { "\"" + s + "\"" }

  function SingleQuote(s: string): string { "'" + s + "'" }

  /** A character that is not printable in ASCII: a control character or DEL. */
  predicate Control(c: char)
  {
    c < ' ' || c as int == 0x7F
  }

  function HexDigit(d: int): char
    requires 0 <= d < 16
  {
    if d < 10 then ('0' as int + d) as char else ('a' as int + d - 10) as char
  }

  /** One character inside a string repr quoted with `q`. */
  function EscapeChar(c: char, q: char): string
  {
    if c == q || c == '\\' then ['\\', c]
    else if c == '\n' then "\\n"
    else if c == '\t' then "\\t"
    else if c == '\r' then "\\r"
    else if Control(c) then "\\x" + [HexDigit(c as int / 16), HexDigit(c as int % 16)]
    else [c]
  }

  function Escaped(s: string, q: char): string
  {
    if s == [] then [] else EscapeChar(s[0], q) + Escaped(s[1..], q)
  }

  /**
   * `repr()` of a str: single quotes, unless the text holds a single quote and
   * no double quote; the chosen quote, backslashes and control characters are
   * escaped.
   */
  function StringRepr(s: string): (r: string)
    ensures |r| >= |s| + 2
    ensures r[0] == r[|r| - 1] && (r[0] == '\'' || r[0] == '"')
    ensures r[0] == '"' <==> '\'' in s && '"' !in s
  {
    EscapedLength(s, if '\'' in s && '"' !in s then '"' else '\'');
    var q := if '\'' in s && '"' !in s then '"' else '\'';
    [q] + Escaped(s, q) + [q]
  }

  lemma {:induction false} EscapedLength(s: string, q: char)
    ensures |Escaped(s, q)| >= |s|
  {
    if s != [] {
      EscapedLength(s[1..], q);
    }
  }

  /** Text without quotes of kind `q`, backslashes or control characters is its own escape. */
  lemma {:induction false} EscapedPlain(s: string, q: char)
    requires forall i :: 0 <= i < |s| ==> s[i] != q && s[i] != '\\' && !Control(s[i])
    ensures Escaped(s, q) == s
  {
    if s != [] {
      EscapedPlain(s[1..], q);
      assert s == [s[0]] + s[1..];
    }
  }

  /** A plain string without quotes, backslashes or control characters prints between single quotes. */
  lemma PlainStringRepr(s: string)
    requires forall i :: 0 <= i < |s| ==> s[i] != '\'' && s[i] != '"' && s[i] != '\\' && !Control(s[i])
    ensures StringRepr(s) == SingleQuote(s)
  {
    EscapedPlain(s, '\'');
  }

  /** `repr()` of a value, as it appears inside a printed dictionary. */
  function PyRepr(v: Value): string
  {
    match v
    case Str(s) => StringRepr(s)
    case Ref(t) => "{'!ref': " + StringRepr(t) + "}"
    case Object(id, rt, props) =>
      var ks := SortedKeys(props.Keys);
      "{'id': " + StringRepr(id) + ", 'resource_type': " + StringRepr(rt) + ", 'properties': {"
        + Join(", ", seq(|ks|, i requires 0 <= i < |ks| => StringRepr(ks[i]) + ": " + PyRepr(props[ks[i]])))
        + "}}"
  }

  /** `str()` of a value: a string is inserted as it is, anything else as its repr. */
  function PyStr(v: Value): (r: string)
    ensures v.Str? ==> r == v.s
  {
    if v.Str? then v.s else PyRepr(v)
  }

  /** `json.dumps(v, sort_keys=True)` of a property value. */
  function ValueJson(v: Value): string
  {
    match v
    case Str(s) => Quote(s)
    case Ref(t) => "{\"!ref\": " + Quote(t) + "}"
    case Object(id, rt, props) =>
      var ks := SortedKeys(props.Keys);
      "{\"id\": " + Quote(id) + ", \"properties\": {"
        + Join(", ", seq(|ks|, i requires 0 <= i < |ks| => Quote(ks[i]) + ": " + ValueJson(props[ks[i]])))
        + "}, \"resource_type\": " + Quote(rt) + "}"
  }

  /** `json.dumps` of a property map, keys in sorted order. */
  function PropertiesJsonOf(props: map<string, Value>): string
  {
    var ks := SortedKeys(props.Keys);
    "{" + Join(", ", seq(|ks|, i requires 0 <= i < |ks| => Quote(ks[i]) + ": " + ValueJson(props[ks[i]]))) + "}"
  }

  function OptionJson(v: Option<Value>): string
  {
    if v.Some? then ValueJson(v.value) else "null"
  }

  /** `json.dumps(resource, sort_keys=True)` of a resource dictionary. */
  function ResourceJson(r: ResourceRepr): string
  {
    "{"
      + (if r.computedProps.Some? then "\"computed_props\": " + PropertiesJsonOf(r.computedProps.value) + ", " else "")
      + "\"id\": " + Quote(r.id)
      + ", \"properties\": " + PropertiesJsonOf(r.properties)
      + ", \"resource_type\": " + Quote(r.resourceType)
      + (if r.status.Some? then ", \"status\": " + Quote(r.status.value) else "")
      + "}"
  }
}
