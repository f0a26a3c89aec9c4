/**
 * The "Scripted Object" document-object proxy: the trust gate that decides
 * whether the object's stored Python code may run, and the dispatcher that
 * runs it on recompute.
 *
 * The object's state is given twice: as the value type `EntityState`, on which
 * the specification functions (`Created`, `Restored`, `ExecuteStep`, ...) and
 * the lemmas are stated, and as the class `ScriptedEntity`, whose fields the
 * proxy's hooks update in place and whose methods are proved against those
 * functions.
 */
module ScriptedObject {
  import opened Wrappers

  /** Value of a user-declared property (an input or an output of the script). */
  datatype Value = Str(s: string) | Num(n: int) | Bool(b: bool)

  /** The user-declared properties of an object, by property name. */
  type Fields = map<string, Value>

  /** A formula the host's expression engine binds to a property. */
  datatype Expr = Expr(formula: string)

  /** Evaluates an expression bound to `AllowExecution` against the object's properties. */
  type Evaluator = (Expr, Fields) -> bool

  /** One scripted object, as the host document holds it. */
  datatype EntityState = EntityState(
    name: string,               // obj.Name, fixed by the host
    definition: string,         // "Definition": the script text, persistent
    allowExecution: bool,       // "AllowExecution": transient
    allowExpr: Option<Expr>,    // the expression bound to "AllowExecution", if any
    fields: Fields)             // user-declared inputs and outputs

  /** The state right after `_make_object` ran `_ScriptedObject.__init__`:
      an empty definition and execution allowed. */
  function Created(name: string): (s: EntityState)
    ensures s.name == name && s.allowExecution && s.allowExpr == None
    ensures s.definition == "" && s.fields == map[]
  {
    EntityState(name, "", true, None, map[])
  }

  /** `onDocumentRestored`: deny execution and unbind any expression from the flag. */
  function Restored(s: EntityState): (r: EntityState)
    ensures !r.allowExecution && r.allowExpr == None
    ensures r.name == s.name && r.definition == s.definition && r.fields == s.fields
  {
    s.(allowExecution := false, allowExpr := None)
  }

  /** A plain assignment `obj.AllowExecution = allow`; a bound expression stays bound. */
  function Assigned(s: EntityState, allow: bool): (r: EntityState)
    ensures r.allowExecution == allow && r.allowExpr == s.allowExpr
    ensures r.name == s.name && r.definition == s.definition && r.fields == s.fields
  {
    s.(allowExecution := allow)
  }

  /** `obj.setExpression("AllowExecution", e)`; `None` removes the binding. The
      flag keeps its value until the next expression pass. */
  function Bound(s: EntityState, e: Option<Expr>): (r: EntityState)
    ensures r.allowExpr == e && r.allowExecution == s.allowExecution
    ensures r.name == s.name && r.definition == s.definition && r.fields == s.fields
  {
    s.(allowExpr := e)
  }

  /** `obj.Definition = text`: the script changes, the trust state does not. */
  function Redefined(s: EntityState, text: string): (r: EntityState)
    ensures r.definition == text
    ensures r.allowExecution == s.allowExecution && r.allowExpr == s.allowExpr
    ensures r.name == s.name && r.fields == s.fields
  {
    s.(definition := text)
  }

  /** `obj.addProperty(...)` or `obj.<key> = v` for a user-declared property
      `key`, never `Definition` or `AllowExecution`: the host refuses to add a
      property under an existing name, and assigning those two is
      `Redefined` and `Assigned`. */
  function WithField(s: EntityState, key: string, v: Value): (r: EntityState)
    ensures r.fields.Keys == s.fields.Keys + {key} && r.fields[key] == v
    ensures forall k :: k in s.fields && k != key ==> r.fields[k] == s.fields[k]
    ensures r.name == s.name && r.definition == s.definition
    ensures r.allowExecution == s.allowExecution && r.allowExpr == s.allowExpr
  {
    s.(fields := s.fields[key := v])
  }

  /** The host's expression pass: a bound expression overrides the flag's value. */
  function EvaluateExpressions(s: EntityState, eval: Evaluator): EntityState
  {
    match s.allowExpr
    case None => s
    case Some(e) => s.(allowExecution := eval(e, s.fields))
  }

  // ---------------------------------------------------------------------------
  // Persistence

  /** What the document file holds for one object. `allowExecution` is what a
      file may carry for the transient flag: nothing in a file the host wrote,
      anything in a tampered one. */
  datatype SavedObject = SavedObject(
    name: string,
    definition: string,
    allowExecution: Option<bool>,
    allowExpr: Option<Expr>,
    fields: Fields)

  /** Saving: persistent properties and expressions are written, the transient flag is not. */
  function Save(s: EntityState): (saved: SavedObject)
    ensures saved.allowExecution == None
    ensures saved.name == s.name && saved.definition == s.definition
    ensures saved.allowExpr == s.allowExpr && saved.fields == s.fields
  {
    SavedObject(s.name, s.definition, None, s.allowExpr, s.fields)
  }

  /** The host reading an object back, before any hook runs: every value found
      in the file is restored, the flag defaults to false when absent. */
  function Read(saved: SavedObject): EntityState
  {
    EntityState(saved.name, saved.definition, saved.allowExecution.GetOr(false),
                saved.allowExpr, saved.fields)
  }

  /** Loading: the host reads the object, then calls `onDocumentRestored`. */
  function Loaded(saved: SavedObject): (s: EntityState)
    ensures !s.allowExecution && s.allowExpr == None
    ensures s.name == saved.name && s.definition == saved.definition && s.fields == saved.fields
  {
    Restored(Read(saved))
  }

  // ---------------------------------------------------------------------------
  // Execution

  /** What the stored script can raise out of `execute`. */
  datatype ScriptError =
    | SyntaxError               // `compile` rejected the definition
    | ModuleError(msg: string)  // the script's top-level code raised
    | MissingEntryPoint         // the script defines no `execute` (AttributeError)
    | EntryPointError(msg: string) // `execute(obj)` raised

  /** Outcome of running a script's module body in a fresh module. */
  datatype ModuleOutcome = ModuleLoaded(hasEntryPoint: bool) | ModuleRaised(msg: string)

  /** Outcome of calling the script's `execute(obj)`: the properties it assigned,
      up to the point where it returned or raised. */
  datatype CallOutcome = Returned(writes: Fields) | Raised(msg: string, writes: Fields)

  /** The Python interpreter, left uninterpreted. Every function receives only the
      script text, the module name and the object's properties, so one run cannot
      see the namespace of another. */
  datatype Interpreter = Interpreter(
    compiles: (string, string) -> bool,                // compile(source, filename, "exec") succeeds
    runModule: (string, string) -> ModuleOutcome,      // exec(code, fresh module named name)
    callEntry: (string, string, Fields) -> CallOutcome) // module.execute(obj)

  /** The properties after the script assigned `writes`: only declared properties change. */
  function Overwrite(fields: Fields, writes: Fields): (r: Fields)
    ensures r.Keys == fields.Keys
    ensures forall k :: k in fields ==> r[k] == (if k in writes then writes[k] else fields[k])
  {
    map k | k in fields :: if k in writes then writes[k] else fields[k]
  }

  /** `text` contains `part`. */
  predicate Mentions(text: string, part: string)
  {
    exists i :: 0 <= i <= |text| && part <= text[i..]
  }

  /** The error `execute` reports when execution is not allowed: one line that
      names the object and says it may not run. */
  function DenialMessage(name: string): (m: string)
    ensures "Execution of script " <= m && Mentions(m, name)
    ensures " is not allowed\n" <= m[|m| - 16..] && |m| == |name| + 36
  {
    var m := "Execution of script " + name + " is not allowed\n";
    assert name <= m[20..];
    m
  }

  /** The effect of one call of `execute`: the new state, the errors printed to
      the console, and the exception raised, if any. */
  datatype Execution = Execution(state: EntityState, printed: seq<string>, raised: Option<ScriptError>)

  /** `_ScriptedObject.execute(obj)`. */
  function ExecuteStep(s: EntityState, interp: Interpreter): (r: Execution)
    // denied: exactly one error naming the object, nothing written, nothing raised
    ensures !s.allowExecution ==>
      r.state == s && |r.printed| == 1 && Mentions(r.printed[0], s.name) && r.raised == None
    // allowed: the script is compiled, its module run, and its `execute(obj)`
    // called; each failure escapes as the matching error
    ensures s.allowExecution && !interp.compiles(s.definition, s.name) ==>
      r == Execution(s, [], Some(SyntaxError))
    ensures s.allowExecution && interp.compiles(s.definition, s.name) &&
            interp.runModule(s.name, s.definition).ModuleRaised? ==>
      r == Execution(s, [], Some(ModuleError(interp.runModule(s.name, s.definition).msg)))
    ensures s.allowExecution && interp.compiles(s.definition, s.name) &&
            interp.runModule(s.name, s.definition) == ModuleLoaded(false) ==>
      r == Execution(s, [], Some(MissingEntryPoint))
    ensures s.allowExecution && interp.compiles(s.definition, s.name) &&
            interp.runModule(s.name, s.definition) == ModuleLoaded(true) ==>
      var out := interp.callEntry(s.name, s.definition, s.fields);
      r.state == s.(fields := Overwrite(s.fields, out.writes)) &&
      (r.raised == None <==> out.Returned?) &&
      (out.Raised? ==> r.raised == Some(EntryPointError(out.msg)))
    // allowed: nothing printed
    ensures s.allowExecution ==> r.printed == []
    // the dispatcher never touches the name, the script or the trust state,
    // and the script only assigns properties that exist
    ensures r.state.name == s.name && r.state.definition == s.definition
    ensures r.state.allowExecution == s.allowExecution && r.state.allowExpr == s.allowExpr
    ensures r.state.fields.Keys == s.fields.Keys
    // the properties change only through a call of the script's entry point
    ensures r.state.fields != s.fields ==>
      s.allowExecution && interp.compiles(s.definition, s.name) &&
      interp.runModule(s.name, s.definition) == ModuleLoaded(true)
  {
    if !s.allowExecution then
      Execution(s, [DenialMessage(s.name)], None)
    else if !interp.compiles(s.definition, s.name) then
      Execution(s, [], Some(SyntaxError))
    else
      match interp.runModule(s.name, s.definition)
      case ModuleRaised(msg) => Execution(s, [], Some(ModuleError(msg)))
      case ModuleLoaded(hasEntryPoint) =>
        if !hasEntryPoint then
          Execution(s, [], Some(MissingEntryPoint))
        else
          match interp.callEntry(s.name, s.definition, s.fields)
          case Returned(writes) =>
            Execution(s.(fields := Overwrite(s.fields, writes)), [], None)
          case Raised(msg, writes) =>
            Execution(s.(fields := Overwrite(s.fields, writes)), [], Some(EntryPointError(msg)))
  }

  // ---------------------------------------------------------------------------
  // The objects the hooks update in place

  /** FreeCAD's report view; `Console.PrintError` appends to it. */
  class Console {
    var errors: seq<string>

    constructor ()
      ensures errors == []
    {
      errors := [];
    }

    method PrintError(msg: string)
      modifies this
      ensures errors == old(errors) + [msg]
    {
      errors := errors + [msg];
    }
  }

  /** A scripted document object with `_ScriptedObject` as its proxy. */
  class ScriptedEntity {
    const name: string
    var definition: string
    var allowExecution: bool
    var allowExpr: Option<Expr>
    var fields: Fields

    function State(): EntityState
      reads this
    {
      EntityState(name, definition, allowExecution, allowExpr, fields)
    }

    /** `_make_object` followed by `_ScriptedObject.__init__`. */
    constructor (name: string)
      ensures State() == Created(name)
    {
      this.name := name;
      definition := "";
      allowExecution := true;
      allowExpr := None;
      fields := map[];
    }

    /** The host restoring an object from a file, then calling `onDocumentRestored`. */
    constructor Load(saved: SavedObject)
      ensures State() == Loaded(saved)
    {
      name := saved.name;
      definition := saved.definition;
      allowExecution := saved.allowExecution.GetOr(false);
      allowExpr := saved.allowExpr;
      fields := saved.fields;
      new;
      OnDocumentRestored();
    }

    /** `_ScriptedObject.onDocumentRestored`. */
    method OnDocumentRestored()
      modifies this
      ensures State() == Restored(old(State()))
    {
      allowExecution := false;
      allowExpr := None;
    }

    /** `obj.AllowExecution = allow`. */
    method SetAllowed(allow: bool)
      modifies this
      ensures State() == Assigned(old(State()), allow)
    {
      allowExecution := allow;
    }

    /** `obj.setExpression("AllowExecution", e)`; `None` removes the binding. */
    method SetExpression(e: Option<Expr>)
      modifies this
      ensures State() == Bound(old(State()), e)
    {
      allowExpr := e;
    }

    /** `obj.Definition = text`. */
    method SetDefinition(text: string)
      modifies this
      ensures State() == Redefined(old(State()), text)
    {
      definition := text;
    }

    /** `obj.addProperty(...)` and `obj.<key> = v` for a user-declared property
        `key`, never `Definition` or `AllowExecution` (see `WithField`). */
    method SetField(key: string, v: Value)
      modifies this
      ensures State() == WithField(old(State()), key, v)
    {
      fields := fields[key := v];
    }

    /** The host's expression pass over this object. */
    method EvaluateBoundExpression(eval: Evaluator)
      modifies this
      ensures State() == EvaluateExpressions(old(State()), eval)
    {
      if allowExpr.Some? {
        allowExecution := eval(allowExpr.value, fields);
      }
    }

    /** `_ScriptedObject.execute`: `raised` is the exception it lets escape. */
    method Execute(console: Console, interp: Interpreter) returns (raised: Option<ScriptError>)
      modifies this, console
      ensures State() == ExecuteStep(old(State()), interp).state
      ensures console.errors == old(console.errors) + ExecuteStep(old(State()), interp).printed
      ensures raised == ExecuteStep(old(State()), interp).raised
    {
      if !allowExecution {
        console.PrintError(DenialMessage(name));
        return None;
      }
      if !interp.compiles(definition, name) {
        return Some(SyntaxError);
      }
      match interp.runModule(name, definition)
      case ModuleRaised(msg) =>
        raised := Some(ModuleError(msg));
      case ModuleLoaded(hasEntryPoint) =>
        if !hasEntryPoint {
          raised := Some(MissingEntryPoint);
        } else {
          var outcome := interp.callEntry(name, definition, fields);
          fields := Overwrite(fields, outcome.writes);
          raised := if outcome.Raised? then Some(EntryPointError(outcome.msg)) else None;
        }
    }
  }
}
