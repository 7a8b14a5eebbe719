/**
 * The per-type handlers of executor.py (Directory, File, DummyRefResource),
 * the operation records they append commands to (OpCtx) and the script
 * context that collects those records (ScriptCtx).
 *
 * Each handler operation is specified by a function from the resource (and
 * the desired graph, or the property diff) to the Action it emits or the
 * error it raises; the class methods that mirror the Python methods are
 * proved against those functions.
 */
module Handlers {
  import opened Types
  import opened Strings
  import opened Text
  import opened PropertyDiff

  datatype Handler = Directory | File | DummyRefResource

  /** `from_type(type)`: the handler class registered for a type tag. */
  function FromType(resourceType: string): (r: Result<Handler>)
    ensures r == Ok(Directory) <==> resourceType == "directory"
    ensures r == Ok(File) <==> resourceType == "file"
    ensures r == Ok(DummyRefResource) <==> resourceType == "dummy_ref_resource"
    ensures r.Err? ==> r.error == UnknownType(resourceType)
  {
    if resourceType == "directory" then Ok(Directory)
    else if resourceType == "file" then Ok(File)
    else if resourceType == "dummy_ref_resource" then Ok(DummyRefResource)
    else Err(UnknownType(resourceType))
  }

  /**
   * `requires_recreate(ctx, old_resource)`: a directory is recreated when its
   * location changes, a file whenever it changes at all, a dummy resource when
   * its immutable parent changes.
   */
  function RequiresRecreate(h: Handler, newResource: ResourceRepr, oldResource: ResourceRepr): (yes: bool)
    ensures h == Directory ==>
      (yes <==> Get(newResource.properties, "location") != Get(oldResource.properties, "location"))
    ensures h == File ==> yes
    ensures h == DummyRefResource ==>
      (yes <==> Get(newResource.properties, "immutable_parent") != Get(oldResource.properties, "immutable_parent"))
  {
    match h
    case Directory => "location" in ResourceDiff(newResource, oldResource)
    case File => true
    case DummyRefResource => "immutable_parent" in ResourceDiff(newResource, oldResource)
  }

  datatype OpKind = Create | Update | Delete

  function KindName(kind: OpKind): string
  {
    match kind
    case Create => "create"
    case Update => "update"
    case Delete => "delete"
  }

  /** The record an OpCtx accumulates: its header fields and its commands so far. */
  datatype Action = Action(kind: OpKind, resourceType: string, resourceId: string, commands: seq<string>)

  /** `OpCtx.comment`: the header line of an operation. */
  function Header(a: Action): (h: string)
    ensures |h| >= 4 && h[..2] == "# "
  {
    "# " + KindName(a.kind) + " " + a.resourceType + " " + a.resourceId
  }

  /** `OpCtx.dump`: header, commands each followed by a blank and joined by newlines, trailer. */
  function DumpAction(a: Action): (s: string)
    ensures |a.commands| == 0 ==> s == Header(a) + "\n" + "\n# end\n\n"
    ensures |a.commands| == 1 ==> s == Header(a) + "\n" + a.commands[0] + " " + "\n# end\n\n"
  {
    Header(a) + "\n"
      + Join("\n", seq(|a.commands|, i requires 0 <= i < |a.commands| => a.commands[i] + " "))
      + "\n# end\n\n"
  }

  /** `ScriptCtx.dump_str`: the dumped operations joined by newlines. */
  function DumpScript(actions: seq<Action>): (s: string)
    ensures |actions| == 0 ==> s == ""
    ensures |actions| == 1 ==> s == DumpAction(actions[0])
  {
    Join("\n", seq(|actions|, i requires 0 <= i < |actions| => DumpAction(actions[i])))
  }

  /** The script of two consecutive runs of operations is their scripts joined by a newline. */
  lemma DumpScriptAppend(a: seq<Action>, b: seq<Action>)
    requires |a| > 0 && |b| > 0
    ensures DumpScript(a + b) == DumpScript(a) + "\n" + DumpScript(b)
  {
    var da := seq(|a|, i requires 0 <= i < |a| => DumpAction(a[i]));
    var db := seq(|b|, i requires 0 <= i < |b| => DumpAction(b[i]));
    var dab := seq(|a + b|, i requires 0 <= i < |a + b| => DumpAction((a + b)[i]));
    assert dab == da + db;
    JoinAppend("\n", da, db);
  }

  /** Every operation's text starts with its header and ends with the trailer. */
  lemma DumpActionFrame(a: Action)
    ensures var s := DumpAction(a);
      && |s| >= |Header(a)| + 8
      && s[..|Header(a)| + 1] == Header(a) + "\n"
      && s[|s| - 8..] == "\n# end\n\n"
  {
  }

  /**
   * `ScriptCtx.get_ref(ref)`: the resource a reference marker points to in the
   * desired graph.
   */
  function Resolve(desired: Graph, v: Value): (r: Result<ResourceRepr>)
    ensures r.Ok? <==> v.Ref? && v.target in desired
    ensures r.Ok? ==> r.value == desired[v.target]
    ensures !v.Ref? ==> r == Err(NotAReference)
    ensures v.Ref? && v.target !in desired ==> r == Err(DanglingReference(v.target))
  {
    if !v.Ref? then Err(NotAReference)
    else if v.target !in desired then Err(DanglingReference(v.target))
    else Ok(desired[v.target])
  }

  /**
   * `os.path.join(a, b)` of POSIX paths: an absolute `b` replaces `a`, an empty
   * `a` or one ending in a slash is extended directly, otherwise a slash goes
   * between them.
   */
  function PathJoin(a: string, b: string): (path: string)
    ensures |b| <= |path| && path[|path| - |b|..] == b
    ensures |b| > 0 && b[0] == '/' ==> path == b
    ensures !(|b| > 0 && b[0] == '/') ==> |a| <= |path| && path[..|a|] == a
    ensures !(|b| > 0 && b[0] == '/') ==> |path| - |a| - |b| == (if a == "" || a[|a| - 1] == '/' then 0 else 1)
  {
    if |b| > 0 && b[0] == '/' then b
    else if a == "" || a[|a| - 1] == '/' then a + b
    else a + "/" + b
  }

  /**
   * The path of a file: its parent resolved in the desired graph, then
   * `os.path.join` of the parent's location and the file name, which raises
   * unless both are strings (the location is checked first).
   */
  function FilePath(r: ResourceRepr, desired: Graph): (path: Result<string>)
    ensures path.Ok? <==>
      && "parent" in r.properties
      && Resolve(desired, r.properties["parent"]).Ok?
      && "location" in desired[r.properties["parent"].target].properties
      && "filename" in r.properties
      && desired[r.properties["parent"].target].properties["location"].Str?
      && r.properties["filename"].Str?
    ensures path.Ok? ==>
      path.value == PathJoin(desired[r.properties["parent"].target].properties["location"].s, r.properties["filename"].s)
    ensures "parent" in r.properties && Resolve(desired, r.properties["parent"]).Err? ==>
      path == Err(Resolve(desired, r.properties["parent"]).error)
    ensures ("parent" in r.properties && Resolve(desired, r.properties["parent"]).Ok? && "filename" in r.properties
             && "location" in desired[r.properties["parent"].target].properties) ==>
      var location := desired[r.properties["parent"].target].properties["location"];
      (!location.Str? ==> path == Err(NotAString("location")))
      && (location.Str? && !r.properties["filename"].Str? ==> path == Err(NotAString("filename")))
  {
    var parentRef :- Lookup(r.properties, "parent");
    var parent :- Resolve(desired, parentRef);
    var location :- Lookup(parent.properties, "location");
    var filename :- Lookup(r.properties, "filename");
    if !location.Str? then Err(NotAString("location"))
    else if !filename.Str? then Err(NotAString("filename"))
    else Ok(PathJoin(location.s, filename.s))
  }

  /** A file name that is not a string makes both creating and deleting the file raise. */
  lemma FileNameMustBeString(r: ResourceRepr, desired: Graph)
    requires "filename" in r.properties && !r.properties["filename"].Str?
    ensures CreateAction(File, r, desired).Err?
    ensures DeleteAction(File, r, desired).Err?
  {
  }

  /** The here-document command that writes a file's text. */
  function TextCommand(text: Value, fullpath: string): string
  {
    "echo << ENDOFFILE\n" + PyStr(text) + "\nENDOFFILE > " + fullpath + "\n"
  }

  function SourceCommand(source: Value, fullpath: string): string
  {
    "wget " + PyStr(source) + " " + fullpath
  }

  /** What `create` appends to the script for resource `r`, or the error it raises. */
  function CreateAction(h: Handler, r: ResourceRepr, desired: Graph): (res: Result<Action>)
    ensures res.Ok? ==>
      && res.value.kind == Create && res.value.resourceType == r.resourceType
      && res.value.resourceId == r.id && |res.value.commands| == 1
    ensures h == Directory ==> (res.Ok? <==> "location" in r.properties)
    ensures h == Directory && res.Ok? ==> res.value.commands[0] == "mkdir -f " + PyStr(r.properties["location"])
    ensures h == File ==>
      (res.Ok? <==> FilePath(r, desired).Ok? && ("text" in r.properties || "source" in r.properties))
    ensures h == File && res.Ok? ==> r.properties["filename"].Str?
    ensures h == File && FilePath(r, desired).Ok? && "text" !in r.properties && "source" !in r.properties ==>
      res == Err(NoFileContent)
    ensures h == File && res.Ok? && "source" in r.properties ==>
      res.value.commands[0] == SourceCommand(r.properties["source"], FilePath(r, desired).value)
    ensures h == File && res.Ok? && "source" !in r.properties ==>
      res.value.commands[0] == TextCommand(r.properties["text"], FilePath(r, desired).value)
    ensures h == DummyRefResource ==> res.Ok?
  {
    match h
    case Directory =>
      var location :- Lookup(r.properties, "location");
      Ok(Action(Create, r.resourceType, r.id, ["mkdir -f " + PyStr(location)]))
    case File =>
      var fullpath :- FilePath(r, desired);
      var fromText := if "text" in r.properties then Some(TextCommand(r.properties["text"], fullpath)) else None;
      var cmd := if "source" in r.properties then Some(SourceCommand(r.properties["source"], fullpath)) else fromText;
      if cmd.None? then Err(NoFileContent)
      else Ok(Action(Create, r.resourceType, r.id, [cmd.value]))
    case DummyRefResource =>
      Ok(Action(Create, r.resourceType, r.id, ["echo create: " + ResourceJson(r)]))
  }

  /** What `update` appends to the script for resource `r` given its property diff, or the error it raises. */
  function UpdateAction(h: Handler, r: ResourceRepr, changes: map<string, Change>): (res: Result<Action>)
    ensures res.Ok? ==>
      && res.value.kind == Update && res.value.resourceType == r.resourceType
      && res.value.resourceId == r.id && |res.value.commands| <= 1
    ensures h == File ==> res == Err(UpdateNotSupported)
    ensures h == Directory ==>
      (res.Ok? <==> "permissions" !in changes || ("location" in r.properties && "permissions" in r.properties))
    ensures h == Directory && res.Ok? ==>
      res.value.commands ==
        if "permissions" in changes
        then ["chmod " + PyStr(r.properties["permissions"]) + " " + PyStr(r.properties["location"])]
        else []
    ensures h == DummyRefResource ==> res.Ok? && |res.value.commands| == 1
  {
    match h
    case Directory =>
      // Only a change entry for "permissions" emits a command; the diff has at most one.
      if "permissions" in changes then
        var location :- Lookup(r.properties, "location");
        var permissions :- Lookup(r.properties, "permissions");
        Ok(Action(Update, r.resourceType, r.id, ["chmod " + PyStr(permissions) + " " + PyStr(location)]))
      else
        Ok(Action(Update, r.resourceType, r.id, []))
    case File =>
      Err(UpdateNotSupported)
    case DummyRefResource =>
      Ok(Action(Update, r.resourceType, r.id, ["echo update: " + ChangesJson(changes)]))
  }

  /**
   * What `delete` appends to the script for resource `r`, or the error it
   * raises; a file's parent is looked up in the DESIRED graph.
   */
  function DeleteAction(h: Handler, r: ResourceRepr, desired: Graph): (res: Result<Action>)
    ensures res.Ok? ==>
      && res.value.kind == Delete && res.value.resourceType == r.resourceType
      && res.value.resourceId == r.id && |res.value.commands| == 1
    ensures h == Directory ==> (res.Ok? <==> "location" in r.properties)
    ensures h == Directory && res.Ok? ==> res.value.commands[0] == "rm -fr " + PyStr(r.properties["location"])
    ensures h == File ==> (res.Ok? <==> FilePath(r, desired).Ok?)
    ensures h == File && res.Ok? ==> r.properties["filename"].Str?
    ensures h == File && res.Ok? ==> res.value.commands[0] == "rm -f " + FilePath(r, desired).value
    ensures h == DummyRefResource ==> res.Ok?
  {
    match h
    case Directory =>
      var location :- Lookup(r.properties, "location");
      Ok(Action(Delete, r.resourceType, r.id, ["rm -fr " + PyStr(location)]))
    case File =>
      var fullpath :- FilePath(r, desired);
      Ok(Action(Delete, r.resourceType, r.id, ["rm -f " + fullpath]))
    case DummyRefResource =>
      Ok(Action(Delete, r.resourceType, r.id, ["echo delete: " + ResourceJson(r)]))
  }

  /**
   * Deleting a file whose parent is no longer in the desired graph fails: the
   * parent reference is resolved against the desired graph, not the old state.
   */
  lemma DeleteFileNeedsParentInDesired(r: ResourceRepr, desired: Graph)
    requires "parent" in r.properties && r.properties["parent"].Ref?
    requires r.properties["parent"].target !in desired
    ensures DeleteAction(File, r, desired) == Err(DanglingReference(r.properties["parent"].target))
  {
  }

  /** A file with both `text` and `source` is fetched: `source` wins. */
  lemma SourceWinsOverText(r: ResourceRepr, desired: Graph)
    requires "text" in r.properties && "source" in r.properties
    requires FilePath(r, desired).Ok?
    ensures CreateAction(File, r, desired).Ok?
    ensures CreateAction(File, r, desired).value.commands[0][..5] == "wget "
  {
  }

  /** `update_status(status, {})` applied to a resource dictionary. */
  function WithStatus(r: ResourceRepr, status: string): (s: ResourceRepr)
    ensures s.id == r.id && s.resourceType == r.resourceType && s.properties == r.properties
    ensures s.status == Some(status) && s.computedProps == Some(map[])
  {
    r.(status := Some(status), computedProps := Some(map[]))
  }

  /**
   * The status a successful operation records: "created", "deleted", and for
   * an update "updated", except that a dummy resource records "deleted".
   */
  function StatusAfter(kind: OpKind, h: Handler): string
  {
    match kind
    case Create => "created"
    case Delete => "deleted"
    case Update => if h == DummyRefResource then "deleted" else "updated"
  }

  /** `OpCtx`: one operation of the script under construction. */
  class OpCtx {
    const kind: OpKind
    const resourceType: string
    const resourceId: string
    var commands: seq<string>

    /** The `comment` argument is accepted and ignored. */
    constructor (kind: OpKind, resource: ResourceRepr, comment: Option<string>)
      ensures Value() == Action(kind, resource.resourceType, resource.id, [])
    {
      this.kind := kind;
      resourceType := resource.resourceType;
      resourceId := resource.id;
      commands := [];
    }

    function Value(): Action
      reads this
    {
      Action(kind, resourceType, resourceId, commands)
    }

    method Command(cmd: string)
      modifies this
      ensures commands == old(commands) + [cmd]
    {
      commands := commands + [cmd];
    }

    function Dump(): string
      reads this
    {
      DumpAction(Value())
    }
  }

  /** The actions recorded by a list of operation contexts, in order. */
  function ActionsOf(ops: seq<OpCtx>): seq<Action>
    reads set o | o in ops
  {
    if ops == [] then [] else ActionsOf(ops[..|ops| - 1]) + [ops[|ops| - 1].Value()]
  }

  lemma ActionsOfSnoc(ops: seq<OpCtx>, op: OpCtx)
    ensures ActionsOf(ops + [op]) == ActionsOf(ops) + [op.Value()]
  {
    assert (ops + [op])[..|ops|] == ops;
  }

  /** `ScriptCtx`: the desired graph references resolve against, and the operations emitted so far. */
  class ScriptCtx {
    const repr: Graph
    var operations: seq<OpCtx>

    constructor (repr: Graph)
      ensures this.repr == repr && operations == []
    {
      this.repr := repr;
      operations := [];
    }

    function Actions(): seq<Action>
      reads this, set o | o in operations
    {
      ActionsOf(operations)
    }

    /** `ScriptCtx.operation(type, resource, comment)`: append a fresh, empty operation. */
    method Operation(kind: OpKind, resource: ResourceRepr, comment: Option<string>) returns (op: OpCtx)
      modifies this
      ensures fresh(op) && operations == old(operations) + [op]
      ensures op.Value() == Action(kind, resource.resourceType, resource.id, [])
    {
      op := new OpCtx(kind, resource, comment);
      operations := operations + [op];
    }

    function GetRef(v: Value): Result<ResourceRepr>
    {
      Resolve(repr, v)
    }

    function DumpStr(): (s: string)
      reads this, set o | o in operations
    {
      DumpScript(Actions())
    }
  }

  /** After appending `op` to `ctx`'s operations and filling it in, the script has grown by `op`'s action. */
  lemma Appended(ctx: ScriptCtx, prefix: seq<OpCtx>, op: OpCtx)
    requires ctx.operations == prefix + [op]
    ensures ctx.Actions() == ActionsOf(prefix) + [op.Value()]
  {
    ActionsOfSnoc(prefix, op);
  }

  /**
   * Give the operation just opened on `ctx` its command, if any: the script
   * grows by exactly that operation.
   */
  method Fill(ctx: ScriptCtx, ghost prefix: seq<OpCtx>, op: OpCtx, cmds: seq<string>)
    requires ctx.operations == prefix + [op] && op !in prefix && op.commands == [] && |cmds| <= 1
    modifies op
    ensures ctx.Actions() == old(ActionsOf(prefix)) + [Action(op.kind, op.resourceType, op.resourceId, cmds)]
  {
    if |cmds| == 1 {
      op.Command(cmds[0]);
    }
    assert op.commands == cmds;
    assert ActionsOf(prefix) == old(ActionsOf(prefix));
    Appended(ctx, prefix, op);
  }

  /**
   * A handler instance holding the resource dictionary it was built from;
   * `update_status` rewrites that dictionary.
   */
  class ExecutableResource {
    const handler: Handler
    var resource: ResourceRepr

    constructor (handler: Handler, resource: ResourceRepr)
      ensures this.handler == handler && this.resource == resource
    {
      this.handler := handler;
      this.resource := resource;
    }

    method UpdateStatus(status: string)
      modifies this
      ensures resource == WithStatus(old(resource), status)
    {
      resource := resource.(status := Some(status), computedProps := Some(map[]));
    }

    /**
     * `create` of the handler class: open a "create" operation on the script,
     * give it the handler's command, record the status "created".
     */
    method Create(ctx: ScriptCtx) returns (out: Outcome)
      modifies this, ctx
      ensures out.Pass? <==> CreateAction(handler, old(resource), ctx.repr).Ok?
      ensures out.Fail? ==> out.error == CreateAction(handler, old(resource), ctx.repr).error
      ensures out.Pass? ==>
        && ctx.Actions() == old(ctx.Actions()) + [CreateAction(handler, old(resource), ctx.repr).value]
        && resource == WithStatus(old(resource), StatusAfter(OpKind.Create, handler))
    {
      var r := resource;
      var op := ctx.Operation(OpKind.Create, r, None);
      ghost var prefix := old(ctx.operations);
      var action := CreateAction(handler, r, ctx.repr);
      if action.Err? {
        return Fail(action.error);
      }
      Fill(ctx, prefix, op, action.value.commands);
      UpdateStatus(StatusAfter(OpKind.Create, handler));
      out := Pass;
    }

    /**
     * `update` of the handler class given the property diff: open an "update"
     * operation, give it the handler's command if any, record the status.
     */
    method Update(ctx: ScriptCtx, changes: map<string, Change>) returns (out: Outcome)
      modifies this, ctx
      ensures out.Pass? <==> UpdateAction(handler, old(resource), changes).Ok?
      ensures out.Fail? ==> out.error == UpdateAction(handler, old(resource), changes).error
      ensures out.Pass? ==>
        && ctx.Actions() == old(ctx.Actions()) + [UpdateAction(handler, old(resource), changes).value]
        && resource == WithStatus(old(resource), StatusAfter(OpKind.Update, handler))
    {
      var r := resource;
      if handler == File {
        // File.update raises before opening an operation.
        return Fail(UpdateNotSupported);
      }
      var op := ctx.Operation(OpKind.Update, r, if handler == Directory then Some("change permissions") else None);
      ghost var prefix := old(ctx.operations);
      var action := UpdateAction(handler, r, changes);
      if action.Err? {
        return Fail(action.error);
      }
      Fill(ctx, prefix, op, action.value.commands);
      UpdateStatus(StatusAfter(OpKind.Update, handler));
      out := Pass;
    }

    /**
     * `delete` of the handler class: open a "delete" operation, give it the
     * handler's command, record the status "deleted".
     */
    method Delete(ctx: ScriptCtx) returns (out: Outcome)
      modifies this, ctx
      ensures out.Pass? <==> DeleteAction(handler, old(resource), ctx.repr).Ok?
      ensures out.Fail? ==> out.error == DeleteAction(handler, old(resource), ctx.repr).error
      ensures out.Pass? ==>
        && ctx.Actions() == old(ctx.Actions()) + [DeleteAction(handler, old(resource), ctx.repr).value]
        && resource == WithStatus(old(resource), StatusAfter(OpKind.Delete, handler))
    {
      var r := resource;
      var op := ctx.Operation(OpKind.Delete, r, if handler == Directory then Some("change permissions") else None);
      ghost var prefix := old(ctx.operations);
      var action := DeleteAction(handler, r, ctx.repr);
      if action.Err? {
        return Fail(action.error);
      }
      Fill(ctx, prefix, op, action.value.commands);
      UpdateStatus(StatusAfter(OpKind.Delete, handler));
      out := Pass;
    }
  }
}
