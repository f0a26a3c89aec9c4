# Scripted Object: trust gate, execute dispatcher and declarative commands

A model, in Dafny, of the core of the FreeCAD "Scripts" workbench: the
`_ScriptedObject` proxy that stores a Python script in a document object's
`Definition` property and runs it on every recompute, and the `_Command` base
class from which the workbench's toolbar commands are declared.

The security of a scripted object rests on one property, `AllowExecution`:

- Creating an object sets it to true: the author trusts their own script.
- The property is transient, so saving never writes it.
- Loading a document runs `onDocumentRestored`, which sets it to false and
  removes any expression bound to it. A document that carries the flag anyway,
  or binds it to a formula that evaluates to true, cannot get its script run.
- `execute` reports a refusal on the console and returns while the flag is
  false. Otherwise it compiles `Definition` as a module named after the object,
  runs it in a fresh module, and calls the module's `execute(obj)`.

The model has six modules, one file each:

- `Wrappers` (`wrappers.dfy`): `Option` and `Result`.
- `ScriptedObject` (`scripted_object.dfy`): the object's state as a value
  (`EntityState`) with the specification functions `Created`, `Restored`,
  `Save`, `Loaded` and `ExecuteStep`. The class `ScriptedEntity` holds the same
  state in fields that its methods update in place, and each method is proved
  against the matching function. `Console` stands for FreeCAD's report view.
- `TrustProperties` (`trust_properties.dfy`): the guarantees of the trust gate
  across save and load, expression evaluation and arbitrary sessions. A session
  is any sequence of user actions, recomputes and reloads of a possibly
  tampered file.
- `Scenarios` (`scenarios.dfy`): the repository's shapeless demo test (area
  3 × 2 = 6), and an echo object that is saved, reopened from a tampered file,
  refused, and allowed again.
- `PythonLiterals` (`python_literals.dfy`): Python's `repr` for the argument
  values a command passes. It comes with a reader for the literals `repr`
  writes, and a proof that reading gives the values back.
- `Command` (`command.dfy`): `GetResources`, `IsActive` and `Activated`, and
  the workbench's three commands. A lemma proves that the emitted console
  command calls the declared function with exactly the declared arguments.

The Python interpreter is a parameter, `Interpreter`, with three uninterpreted
functions: whether `compile` accepts the text, what running the module body
gives, and what `execute(obj)` assigns before it returns or raises. Each of
them sees only the script text, the module name and the object's properties,
so no run can see another run's namespace. This is an assumption about
scripts, not a guarantee of the program: see "## Left out". How expressions
evaluate (`Evaluator`), the icon directory and the active document are
parameters too.

Two consequences of how `execute` is written:

- `execute` does not roll back properties a failing script already assigned:
  `ExecuteStep` applies the writes of a `Raised` outcome.
- Errors in the script (syntax, top-level code, a missing `execute`, an
  exception in `execute`) escape `execute` as exceptions, modelled by
  `ExecuteStep`'s `raised` result. The dispatcher catches none of them; the
  host's recompute does.

A reopened echo object still holds the output it was saved with, since the
output is a persistent property. `Scenarios.EchoReopened` therefore feeds a
new input ("bye Polly") after the reload. It shows that the output stays
stale while the object is refused, and that it follows the input once the
user allows execution.

## Model

| member | source | states |
|---|---|---|
| `ScriptedObject.Created` | freecad/scripts/scripted_object.py:56-63 | a new object has execution allowed, no expression bound to the flag, an empty definition and no user properties |
| `ScriptedObject.ScriptedEntity.constructor` | freecad/scripts/scripted_object.py:56-63 | creating the object gives exactly the `Created` state |
| `ScriptedObject.Restored` | freecad/scripts/scripted_object.py:65-71 | the restore hook leaves execution denied and no expression bound, whatever the state was; name, script and properties are kept |
| `ScriptedObject.ScriptedEntity.OnDocumentRestored` | freecad/scripts/scripted_object.py:65-71 | the hook updates the object in place to `Restored` of its old state |
| `ScriptedObject.Assigned` | freecad/scripts/scripted_object.py:63-68 | assigning the flag sets it to the value given and changes nothing else, the bound expression included |
| `ScriptedObject.Bound` | freecad/scripts/scripted_object.py:69-71 | binding or unbinding an expression changes only the binding; the flag keeps its value until the next expression pass |
| `ScriptedObject.Redefined` | freecad/scripts/scripted_object_tests.py:26-29 | assigning `Definition` changes the script text and neither the trust state nor the properties |
| `ScriptedObject.WithField` | freecad/scripts/scripted_object_tests.py:22-31 | declaring or assigning a user property sets that property and leaves every other property, the script and the trust state unchanged |
| `ScriptedObject.ScriptedEntity.SetAllowed` | freecad/scripts/scripted_object.py:63-68 | a plain assignment changes the flag and leaves any bound expression bound |
| `ScriptedObject.ScriptedEntity.SetExpression` | freecad/scripts/scripted_object.py:69-71 | the object is updated in place to `Bound` of its old state |
| `ScriptedObject.ScriptedEntity.SetDefinition` | freecad/scripts/scripted_object_tests.py:26-29 | the object is updated in place to `Redefined` of its old state |
| `ScriptedObject.ScriptedEntity.SetField` | freecad/scripts/scripted_object_tests.py:22-31 | the object is updated in place to `WithField` of its old state |
| `ScriptedObject.ScriptedEntity.EvaluateBoundExpression` | freecad/scripts/scripted_object.py:69-70 | the host's expression pass overrides the flag with the value of the bound expression, if any |
| `ScriptedObject.Save` | freecad/scripts/scripted_object.py:58-62 | a saved object carries its name, script, properties and expression binding, and no value for the transient flag |
| `ScriptedObject.Loaded` | freecad/scripts/scripted_object.py:65-71 | any file, including one holding a value for the flag or an expression, loads to an object with execution denied and no binding, and with the file's name, script and properties |
| `ScriptedObject.ScriptedEntity.Load` | freecad/scripts/scripted_object.py:65-71 | reading an object from a file and running the restore hook gives exactly `Loaded` of the file |
| `ScriptedObject.Overwrite` | freecad/scripts/scripted_object.py:80 | the script's assignments change the values of the object's declared properties and never add or remove one |
| `ScriptedObject.DenialMessage` | freecad/scripts/scripted_object.py:75 | the refusal starts with "Execution of script", names the object, and ends with " is not allowed" and a line break |
| `ScriptedObject.ExecuteStep` | freecad/scripts/scripted_object.py:73-80 | denied: exactly one console error naming the object, nothing written, nothing raised. Allowed: nothing printed; a script that does not compile raises a syntax error, a module body that raises raises its error, a module without `execute` raises the missing-entry-point error, each leaving the object unchanged; otherwise `execute(obj)` is called on the object's properties, its assignments are applied, and it raises exactly when the call raised. The name, script, flag and binding never change |
| `ScriptedObject.ScriptedEntity.Execute` | freecad/scripts/scripted_object.py:73-80 | the object's new state, the console's new errors and the escaping exception are those of `ExecuteStep` |
| `ScriptedObject.Console.PrintError` | freecad/scripts/scripted_object.py:75 | printing an error appends exactly that message to the report view |
| `TrustProperties.RestoredIdempotent` | freecad/scripts/scripted_object.py:65-71 | running the restore hook twice equals running it once, and the result is untrusted |
| `TrustProperties.SaveLoadRoundTrip` | freecad/scripts/scripted_object.py:58-71 | save then load keeps the script and properties and loses the trust, even when the flag was true at save time |
| `TrustProperties.LoadedObjectIsDenied` | freecad/scripts/scripted_object.py:65-76 | after loading any file and evaluating expressions, the object is untrusted, and its recompute prints the denial message and leaves it unchanged |
| `TrustProperties.ExpressionCannotResurrectTrust` | freecad/scripts/scripted_object.py:69-71 | an expression evaluating to true overrides a plain `False`, so resetting the flag alone would not suffice; after save and load the same object stays untrusted |
| `TrustProperties.AssignmentAfterLoadIsEffective` | freecad/scripts/scripted_object.py:68-71 | after a load, the value a user assigns to the flag is the value the next recompute sees |
| `TrustProperties.TrustRequiresGrant` | freecad/scripts/scripted_object.py:60-71 | after any session of edits, recomputes and reloads of tampered files, execution is allowed only if the object was new and never reloaded, or a user assigned true or bound an expression since the last reload |
| `TrustProperties.UngrantedRecomputesAreInert` | freecad/scripts/scripted_object.py:65-76 | starting untrusted, a session without a grant ends exactly as the same session with every recompute removed: no script writes anything |
| `Scenarios.ShapelessDemo` | freecad/scripts/scripted_object_tests.py:20-33 | a new "Demo" object with inputs 3 and 2 and the area script computes `Area == 6` and raises nothing |
| `Scenarios.EchoWhileNew` | freecad/scripts/scripted_object.py:56-80 | a new echo object copies "hello Polly" to its output; saving it writes the script and both properties and no flag |
| `Scenarios.EchoReopened` | freecad/scripts/scripted_object.py:65-80 | reopened from a file with any flag value and binding, the echo object keeps its stale output, prints exactly one denial, and echoes again once allowed |
| `PythonLiterals.Repr` | freecad/scripts/scripted_object.py:160 | the first character of `repr(v)` tells None, a boolean, a string and an integer apart, and an integer's starts with `-` exactly when it is negative |
| `PythonLiterals.Reprs` | freecad/scripts/scripted_object.py:160 | the list comprehension gives one `repr` per argument, in order |
| `PythonLiterals.Join` | freecad/scripts/scripted_object.py:161 | joining no parts gives the empty text, one part gives that part, and more parts start with the first part and the separator |
| `PythonLiterals.EscapedRoundTrip` | freecad/scripts/scripted_object.py:160 | reading the escaped body `repr` writes for a text, up to the closing quote, gives the text and what follows it |
| `PythonLiterals.DecimalRoundTrip` | freecad/scripts/scripted_object.py:160 | the decimal digits `repr` writes for a natural number denote that number |
| `PythonLiterals.LiteralRoundTrip` | freecad/scripts/scripted_object.py:160 | reading `repr(v)` gives back `v` and the text after it, for None, booleans, integers and strings |
| `PythonLiterals.ArgsRoundTrip` | freecad/scripts/scripted_object.py:160-161 | reading `", ".join(repr(a) for a in args)` gives back `args` |
| `Command.JoinPath` | freecad/scripts/scripted_object.py:139 | a relative icon name gives the icon directory, a `/` and the name; an absolute one replaces the directory; an empty directory leaves the name alone |
| `Command.GetResources` | freecad/scripts/scripted_object.py:131-141 | `MenuText` defaults to the class name, `ToolTip` to the docstring (or None), and `Pixmap` is present exactly when `Icon` is declared, as the icon's path |
| `Command.IsActive` | freecad/scripts/scripted_object.py:143-147 | a command is active exactly when a document is open |
| `Command.Activated` | freecad/scripts/scripted_object.py:149-163 | fails with NotImplementedError exactly when there is no `Function`; a transaction is opened exactly when `Transaction` is set and non-empty, and fails only when there is no document to open it on; the module imported is the function's module |
| `Command.ActiveCommandSucceeds` | freecad/scripts/scripted_object.py:143-163 | while `IsActive` holds, `Activated` succeeds exactly when the command has a `Function` |
| `Command.CommandText` | freecad/scripts/scripted_object.py:161 | the command text starts with `module.function(` and ends with `)`, is `module.function()` without arguments, and for a well-named function its first parenthesis is the call's own |
| `Command.CommandTextRoundTrip` | freecad/scripts/scripted_object.py:158-161 | reading `module.function(args)` back gives the module, the function name and the arguments |
| `Command.ActivatedCallsFunction` | freecad/scripts/scripted_object.py:158-163 | the command text `Activated` emits calls the declared function with the declared `Args`, or none when `Args` is absent |
| `Command.ShapelessObjectActivates` | freecad/scripts/scripted_object.py:166-174 | `_ShapelessObject` opens "Create Scripted Object" and calls `make_shapeless_object('ScriptedObject')` in the scripted-object module |
| `Command.Object2DActivates` | freecad/scripts/scripted_object.py:177-185 | `_2DObject` opens "Create Scripted 2D Object" and calls `make_2d_object('Scripted2DObject')` |
| `Command.Object3DActivates` | freecad/scripts/scripted_object.py:188-196 | `_3DObject` opens "Create Scripted 3D Object" and calls `make_3d_object('Scripted3DObject')` |

## Left out

- Compiling and running Python (`compile`, `exec`, the module's `execute`) is the uninterpreted `Interpreter`. The Python language cannot be modelled here.
- A script that assigns `obj.Definition` or `obj.AllowExecution`, binds an expression, or sets an attribute that is not a user-declared property is not modelled. In the model, scripts write user-declared properties only, which is why `ExecuteStep` can promise that the script text and the trust state never change.
- Side effects of a script's top-level code on the document are not modelled; only the outcome of running it (loaded, with or without `execute`, or raised) is.
- Host calls (`addObject`, `_make_object`, `make_*_object`, `setPropertyStatus`) add nothing to `fields`; only `addProperty` for a user property does, as `WithField`. The transient status is modelled by `Save` dropping the flag.
- `ScriptedObject.Created` models the three factories alike. The objects `make_2d_object` and `make_3d_object` create already have their base type's own properties (`Shape`, `Placement`, `Label`, ...), which are not in `fields`. A script's write to one of them, such as `obj.Shape = ...`, is therefore dropped by `ScriptedObject.Overwrite`.
- `ScriptedObject.Value`: property types, units and floating-point values (`PropertyLength` "3 mm", `PropertyArea`) are reduced to `Str`, `Num` over integers and `Bool`.
- `_assign_parent`, `_ViewProviderScriptedObject`, the `gui_command` registration, `init_gui.py`, `editor.py` and `__init__.py` are GUI, registration and path constants. The icon directory `ICON_PATH` is a parameter.
- `Gui.addModule`, `Gui.doCommand` and `openTransaction` are not modelled as effects. `Activated` returns the transaction name, the module and the command text they receive. The transaction `Activated` opens is never committed in this code; committing it is left to the host.
- The host's recompute loop, and the ordering it guarantees, are not modelled: `onDocumentRestored` runs before any expression pass, and each object's recompute is isolated from the others. `Loaded` composes reading and the hook in that order. That recomputes are isolated is an assumption of the model, stated on the next line.
- Scripts are assumed to write only their own object's declared properties and to be deterministic. In the program, `execute(obj)` receives the live object. Through `obj.Document` it can write any other object's properties, including another object's `AllowExecution`, and through imported modules it can keep state between runs. A trusted script that grants or runs another object is not modelled, so `TrustProperties.TrustRequiresGrant` and `TrustProperties.UngrantedRecomputesAreInert` hold only for sessions in which no other object's script acts on this one.
- The sphere test (`test3dObject_Demo`) uses floating-point geometry and is not modelled.
- `PythonLiterals.Repr`: Python writes non-printable non-ASCII characters as `\x`, `\u` or `\U` escapes; the model treats every non-ASCII character as printable.
- `PythonLiterals.Repr`: argument values are limited to None, booleans, integers and strings; lists, floats and other objects are not modelled.
- `PythonLiterals.ReadLiteral` and `Command.ReadCall` read only the literal and call syntax that `repr` and `Activated` write; they are not a full Python parser.
- `Command.JoinPath`: only POSIX paths are joined. On Windows, `pathlib.Path` is a `WindowsPath` that joins with `\` and keeps the drive when the name starts with `/`; that is not modelled. pathlib's normalisation of redundant separators and `.` components is not modelled either.
