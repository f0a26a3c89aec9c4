/**
 * `_Command`, the base class of the workbench's declarative commands: a
 * command class only declares attributes, and the base class builds the
 * resource dictionary and the console command from them.
 */
module Command {
  import opened Wrappers
  import opened PythonLiterals

  /** A module-level Python function: its `__module__` and `__name__`. */
  datatype FunctionRef = FunctionRef(moduleName: string, name: string)

  /** The attributes of a command class; `None` where the class does not declare one. */
  datatype CommandClass = CommandClass(
    className: string,                 // self.__class__.__name__
    doc: Option<string>,               // self.__doc__, None without a docstring
    menuText: Option<string>,          // MenuText
    toolTip: Option<string>,           // ToolTip
    icon: Option<string>,              // Icon, a file name under the icon directory
    transaction: Option<string>,       // Transaction
    func: Option<FunctionRef>,         // Function
    args: Option<seq<PyValue>>)        // Args

  /** A value of the resource dictionary: a string, or Python's `None`. */
  datatype Resource = Text(text: string) | NoneValue

  /** `str(pathlib.PurePosixPath(base) / name)`: an absolute `name` replaces
      `base`, and the empty path stands for the current directory. */
  function JoinPath(base: string, name: string): (p: string)
    ensures name != [] && name[0] == '/' ==> p == name
    ensures base == [] && name != [] ==> p == name
    ensures base != [] && name != [] && name[0] != '/' ==>
      base <= p && |name| < |p| && p[|p| - |name|..] == name && p[|p| - |name| - 1] == '/'
    ensures name == [] ==> p == (if base == [] then "." else base)
  {
    if name == [] then (if base == [] then "." else base)
    else if name[0] == '/' || base == [] then name
    else if base != [] && base[|base| - 1] == '/' then base + name
    else base + "/" + name
  }

  /** `_Command.GetResources`, with `iconPath` the workbench's icon directory. */
  function GetResources(c: CommandClass, iconPath: string): (r: map<string, Resource>)
    ensures r.Keys == {"MenuText", "ToolTip"} + (if c.icon.Some? then {"Pixmap"} else {})
    ensures r["MenuText"] == Text(if c.menuText.Some? then c.menuText.value else c.className)
    ensures c.toolTip.Some? ==> r["ToolTip"] == Text(c.toolTip.value)
    ensures c.toolTip.None? ==> r["ToolTip"] == (if c.doc.Some? then Text(c.doc.value) else NoneValue)
    ensures c.icon.Some? ==> r["Pixmap"] == Text(JoinPath(iconPath, c.icon.value))
  {
    var toolTip :=
      match c.toolTip
      case Some(t) => Text(t)
      case None => (match c.doc case Some(d) => Text(d) case None => NoneValue);
    var resources := map["MenuText" := Text(c.menuText.GetOr(c.className)), "ToolTip" := toolTip];
    match c.icon
    case Some(icon) => resources["Pixmap" := Text(JoinPath(iconPath, icon))]
    case None => resources
  }

  /** `_Command.IsActive`: a command is available while a document is open. */
  function IsActive(activeDocument: Option<string>): (active: bool)
    ensures active <==> activeDocument.Some?
  {
    match activeDocument
    case Some(_) => true
    case None => false
  }

  /** Python's truth value of the `Transaction` attribute (`None` when absent). */
  predicate Truthy(transaction: Option<string>)
  {
    transaction.Some? && transaction.value != ""
  }

  /** What `Activated` raises. */
  datatype CommandError =
    | NotImplemented    // no `Function`: a subclass must override `Activated`
    | NoActiveDocument  // a transaction is to be opened on `App.ActiveDocument`, which is None

  /** What `Activated` asks the host to do: open the transaction, import the
      module and run the command text in the Python console. */
  datatype Activation = Activation(transaction: Option<string>, importedModule: string, command: string)

  /** `f"{module}.{function}({', '.join(args)})"`: the call's own parenthesis is
      the first one in the text, and the text ends with its closing one. */
  function CommandText(f: FunctionRef, args: seq<PyValue>): (r: string)
    ensures f.moduleName + "." + f.name + "(" <= r && r[|r| - 1] == ')'
    ensures args == [] ==> r == f.moduleName + "." + f.name + "()"
    ensures WellNamed(f) ==> IndexOf(r, '(') == |f.moduleName| + 1 + |f.name|
  {
    var r := f.moduleName + "." + f.name + "(" + Join(", ", Reprs(args)) + ")";
    if WellNamed(f) then
      CallHeadFirstParen(f, Join(", ", Reprs(args)) + ")");
      assert r == f.moduleName + "." + f.name + "(" + (Join(", ", Reprs(args)) + ")");
      r
    else r
  }

  /** `_Command.Activated`. */
  function Activated(c: CommandClass, activeDocument: Option<string>): (r: Result<Activation, CommandError>)
    ensures r == Err(NotImplemented) <==> c.func.None?
    ensures r == Err(NoActiveDocument) <==>
      c.func.Some? && Truthy(c.transaction) && activeDocument.None?
    ensures r.Ok? ==> r.value.importedModule == c.func.value.moduleName
    ensures r.Ok? ==> (r.value.transaction.Some? <==> Truthy(c.transaction))
    ensures r.Ok? && r.value.transaction.Some? ==> r.value.transaction == c.transaction
  {
    match c.func
    case None => Err(NotImplemented)
    case Some(f) =>
      if Truthy(c.transaction) && activeDocument.None? then Err(NoActiveDocument)
      else
        Ok(Activation(if Truthy(c.transaction) then c.transaction else None,
                      f.moduleName, CommandText(f, c.args.GetOr([]))))
  }

  /** The host activates a command only while `IsActive` holds; then a
      command with a `Function` always succeeds. */
  lemma ActiveCommandSucceeds(c: CommandClass, activeDocument: Option<string>)
    requires IsActive(activeDocument)
    ensures Activated(c, activeDocument).Ok? <==> c.func.Some?
  {
  }

  // ---------------------------------------------------------------------------
  // What the console makes of the command text

  /** A call of a module-level function with literal arguments. */
  datatype Call = Call(moduleName: string, functionName: string, args: seq<PyValue>)

  /** The position of the first `c` in `s`, or `|s|` when there is none. */
  function IndexOf(s: string, c: char): (i: nat)
    ensures i <= |s| && (i < |s| ==> s[i] == c)
    ensures forall j :: 0 <= j < i ==> s[j] != c
    decreases |s|
  {
    if s == [] then 0 else if s[0] == c then 0 else 1 + IndexOf(s[1..], c)
  }

  /** The position of the last `c` in `s`, or -1 when there is none. */
  function LastIndexOf(s: string, c: char): (i: int)
    ensures -1 <= i < |s| && (0 <= i ==> s[i] == c)
    ensures forall j :: i < j < |s| ==> s[j] != c
    decreases |s|
  {
    if s == [] then -1
    else if s[|s| - 1] == c then |s| - 1
    else LastIndexOf(s[..|s| - 1], c)
  }

  /** Reads `module.function(arg, ...)`: the function name is what follows the
      last dot before the first parenthesis. */
  function ReadCall(command: string): Option<Call>
  {
    var paren := IndexOf(command, '(');
    var head, tail := command[..paren], command[paren..];
    var dot := LastIndexOf(head, '.');
    if |tail| < 2 || tail[|tail| - 1] != ')' || dot < 0 then None
    else
      match ReadArgs(tail[1..|tail| - 1])
      case None => None
      case Some(args) => Some(Call(head[..dot], head[dot + 1..], args))
  }

  /** A Python function's `__module__` and `__name__` hold no parenthesis, and the name no dot. */
  predicate WellNamed(f: FunctionRef)
  {
    '(' !in f.moduleName && '(' !in f.name && '.' !in f.name
  }

  /** In `module.function(...`, the first parenthesis follows the function name. */
  lemma CallHeadFirstParen(f: FunctionRef, rest: string)
    requires WellNamed(f)
    ensures IndexOf(f.moduleName + "." + f.name + "(" + rest, '(') == |f.moduleName| + 1 + |f.name|
  {
    var head := f.moduleName + "." + f.name;
    assert '(' !in head by {
      assert forall j :: 0 <= j < |head| ==> head[j] in f.moduleName || head[j] == '.' || head[j] in f.name;
    }
    assert head + "(" + rest == head + ['('] + rest;
    IndexOfFirst(head, '(', rest);
  }

  lemma IndexOfFirst(a: string, c: char, b: string)
    requires c !in a
    ensures IndexOf(a + [c] + b, c) == |a|
  {
    var s := a + [c] + b;
    assert s[|a|] == c;
    assert forall j :: 0 <= j < |a| ==> s[j] == a[j];
  }

  lemma {:induction false} LastIndexOfLast(a: string, c: char, b: string)
    requires c !in b
    ensures LastIndexOf(a + [c] + b, c) == |a|
    decreases |b|
  {
    var s := a + [c] + b;
    if b == [] {
      assert s[|s| - 1] == c;
    } else {
      assert s[|s| - 1] == b[|b| - 1];
      assert s[..|s| - 1] == a + [c] + b[..|b| - 1];
      LastIndexOfLast(a, c, b[..|b| - 1]);
    }
  }

  /** The pieces `ReadCall` cuts `module.function(inner)` into. */
  lemma CallParts(f: FunctionRef, inner: string)
    requires WellNamed(f)
    ensures var head, command := f.moduleName + "." + f.name, f.moduleName + "." + f.name + "(" + inner + ")";
      IndexOf(command, '(') == |head| && command[..|head|] == head && command[|head|..] == "(" + inner + ")" &&
      LastIndexOf(head, '.') == |f.moduleName| &&
      head[..|f.moduleName|] == f.moduleName && head[|f.moduleName| + 1..] == f.name
  {
    var head := f.moduleName + "." + f.name;
    var command := head + "(" + inner + ")";
    assert command == head + "(" + (inner + ")");
    CallHeadFirstParen(f, inner + ")");
    assert head == f.moduleName + ['.'] + f.name;
    LastIndexOfLast(f.moduleName, '.', f.name);
  }

  /** Reading `module.function(inner)` splits it at the call's own parenthesis
      and the last dot before it, and reads `inner` as the argument list. */
  lemma ReadCallOfCall(f: FunctionRef, inner: string, args: seq<PyValue>)
    requires WellNamed(f) && ReadArgs(inner) == Some(args)
    ensures ReadCall(f.moduleName + "." + f.name + "(" + inner + ")") == Some(Call(f.moduleName, f.name, args))
  {
    CallParts(f, inner);
    var tail := "(" + inner + ")";
    assert tail[1..|tail| - 1] == inner;
  }

  /** Reading the command text gives back the function and the arguments. */
  lemma CommandTextRoundTrip(f: FunctionRef, args: seq<PyValue>)
    requires WellNamed(f)
    ensures ReadCall(CommandText(f, args)) == Some(Call(f.moduleName, f.name, args))
  {
    ArgsRoundTrip(args);
    ReadCallOfCall(f, Join(", ", Reprs(args)), args);
  }

  /** The console command that `Activated` emits calls the command's function
      with exactly the command's arguments (none when `Args` is absent). */
  lemma ActivatedCallsFunction(c: CommandClass, activeDocument: Option<string>)
    requires c.func.Some? && WellNamed(c.func.value)
    requires Activated(c, activeDocument).Ok?
    ensures ReadCall(Activated(c, activeDocument).value.command)
         == Some(Call(c.func.value.moduleName, c.func.value.name, c.args.GetOr([])))
  {
    CommandTextRoundTrip(c.func.value, c.args.GetOr([]));
  }

  // ---------------------------------------------------------------------------
  // The workbench's three commands

  const ScriptedObjectModule: string := "freecad.scripts.scripted_object"

  /** `_ShapelessObject` (command `Scripts_ShapelessObject`). */
  const ShapelessObject: CommandClass := CommandClass(
    "_ShapelessObject", None, Some("Shapeless Object"),
    Some("Create a new 'Scripted Object' without a shape."), Some("script-no-shape.svg"),
    Some("Create Scripted Object"),
    Some(FunctionRef(ScriptedObjectModule, "make_shapeless_object")), Some([PyStr("ScriptedObject")]))

  /** `_2DObject` (command `Scripts_2DObject`). */
  const Object2D: CommandClass := CommandClass(
    "_2DObject", None, Some("2D Object"),
    Some("Create a new 'Scripted Object' with a 2D shape."), Some("script-2d-shape.svg"),
    Some("Create Scripted 2D Object"),
    Some(FunctionRef(ScriptedObjectModule, "make_2d_object")), Some([PyStr("Scripted2DObject")]))

  /** `_3DObject` (command `Scripts_3DObject`). */
  const Object3D: CommandClass := CommandClass(
    "_3DObject", None, Some("3D Object"),
    Some("Create a new 'Scripted Object' with a 3D shape."), Some("script-3d-shape.svg"),
    Some("Create Scripted 3D Object"),
    Some(FunctionRef(ScriptedObjectModule, "make_3d_object")), Some([PyStr("Scripted3DObject")]))

  lemma ScriptedObjectModuleWellNamed(name: string)
    requires '(' !in name && '.' !in name
    ensures WellNamed(FunctionRef(ScriptedObjectModule, name))
  {
    assert forall k :: 0 <= k < |ScriptedObjectModule| ==> ScriptedObjectModule[k] != '(';
  }

  /** With a document open, `_ShapelessObject` opens its transaction and asks
      the console to call its factory with the default object name;
      `ActivatedCallsFunction` reads that call back. */
  lemma ShapelessObjectActivates(doc: string)
    ensures Activated(ShapelessObject, Some(doc)) == Ok(Activation(Some("Create Scripted Object"),
      ScriptedObjectModule, CommandText(FunctionRef(ScriptedObjectModule, "make_shapeless_object"), [PyStr("ScriptedObject")])))
    ensures WellNamed(ShapelessObject.func.value)
  {
    assert Truthy(ShapelessObject.transaction) && ShapelessObject.func == Some(FunctionRef(ScriptedObjectModule, "make_shapeless_object"));
    ScriptedObjectModuleWellNamed("make_shapeless_object");
  }

  /** The same for `_2DObject`. */
  lemma Object2DActivates(doc: string)
    ensures Activated(Object2D, Some(doc)) == Ok(Activation(Some("Create Scripted 2D Object"),
      ScriptedObjectModule, CommandText(FunctionRef(ScriptedObjectModule, "make_2d_object"), [PyStr("Scripted2DObject")])))
    ensures WellNamed(Object2D.func.value)
  {
    assert Truthy(Object2D.transaction) && Object2D.func == Some(FunctionRef(ScriptedObjectModule, "make_2d_object"));
    ScriptedObjectModuleWellNamed("make_2d_object");
  }

  /** The same for `_3DObject`. */
  lemma Object3DActivates(doc: string)
    ensures Activated(Object3D, Some(doc)) == Ok(Activation(Some("Create Scripted 3D Object"),
      ScriptedObjectModule, CommandText(FunctionRef(ScriptedObjectModule, "make_3d_object"), [PyStr("Scripted3DObject")])))
    ensures WellNamed(Object3D.func.value)
  {
    assert Truthy(Object3D.transaction) && Object3D.func == Some(FunctionRef(ScriptedObjectModule, "make_3d_object"));
    ScriptedObjectModuleWellNamed("make_3d_object");
  }
}
