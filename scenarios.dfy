/**
 * Whole sessions with scripted objects, written against the methods of
 * `ScriptedEntity` the way the host and a user drive them. What each script
 * does is a requirement on the interpreter.
 */
module Scenarios {
  import opened Wrappers
  import opened ScriptedObject

  /** The script of the shapeless demo object. */
  const AreaScript: string := "def execute(obj):\n   obj.Area = obj.Hight * obj.Width"

  /** The interpreter runs `AreaScript` for the object "Demo" as Python would. */
  ghost predicate ComputesArea(interp: Interpreter)
  {
    interp.compiles(AreaScript, "Demo") &&
    interp.runModule("Demo", AreaScript) == ModuleLoaded(true) &&
    forall f: Fields :: "Hight" in f && "Width" in f && f["Hight"].Num? && f["Width"].Num? ==>
      interp.callEntry("Demo", AreaScript, f) == Returned(map["Area" := Num(f["Hight"].n * f["Width"].n)])
  }

  /** A new shapeless object with inputs 3 and 2 computes the area 6 on its
      first recompute: the creator trusts their own script. */
  method ShapelessDemo(interp: Interpreter) returns (area: Value, raised: Option<ScriptError>)
    requires ComputesArea(interp)
    ensures area == Num(6) && raised == None
  {
    var obj := new ScriptedEntity("Demo");
    obj.SetField("Hight", Num(0));
    obj.SetField("Width", Num(0));
    obj.SetField("Area", Num(0));
    obj.SetDefinition(AreaScript);
    obj.SetField("Hight", Num(3));
    obj.SetField("Width", Num(2));
    var console := new Console();
    raised := obj.Execute(console, interp);
    area := obj.fields["Area"];
  }

  /** The script `Out = In`. */
  const EchoScript: string := "def execute(obj):\n   obj.Out = obj.In"

  /** The interpreter runs `EchoScript` for the object "Echo" as Python would. */
  ghost predicate Echoes(interp: Interpreter)
  {
    interp.compiles(EchoScript, "Echo") &&
    interp.runModule("Echo", EchoScript) == ModuleLoaded(true) &&
    forall f: Fields :: "In" in f ==>
      interp.callEntry("Echo", EchoScript, f) == Returned(map["Out" := f["In"]])
  }

  /** The echo object, new in this session, runs: `Out` becomes `In`. Saving
      it writes the script and both properties, and no trust. */
  method EchoWhileNew(interp: Interpreter) returns (out: Value, file: SavedObject)
    requires Echoes(interp)
    ensures out == Str("hello Polly")
    ensures file == SavedObject("Echo", EchoScript, None, None,
                                map["In" := Str("hello Polly"), "Out" := Str("hello Polly")])
  {
    var obj := new ScriptedEntity("Echo");
    obj.SetField("In", Str(""));
    obj.SetField("Out", Str(""));
    obj.SetDefinition(EchoScript);
    obj.SetField("In", Str("hello Polly"));
    var console := new Console();
    assert obj.fields == map["In" := Str("hello Polly"), "Out" := Str("")];
    var _ := obj.Execute(console, interp);
    out := obj.fields["Out"];
    file := Save(obj.State());
  }

  /** The echo object reopened from its file, whatever the file says about the
      flag or binds to it, refuses to run whatever the expression evaluates to:
      it reports the refusal once and keeps the stale output. Once the user
      allows it, it runs again. */
  method EchoReopened(interp: Interpreter, eval: Evaluator, file: SavedObject)
    returns (stale: Value, denial: seq<string>, allowed: Value)
    requires Echoes(interp)
    requires file.name == "Echo" && file.definition == EchoScript
    requires file.fields == map["In" := Str("hello Polly"), "Out" := Str("hello Polly")]
    ensures stale == Str("hello Polly")
    ensures denial == [DenialMessage("Echo")]
    ensures allowed == Str("bye Polly")
  {
    var obj := new ScriptedEntity.Load(file);
    var console := new Console();
    obj.SetField("In", Str("bye Polly"));
    obj.EvaluateBoundExpression(eval);
    var _ := obj.Execute(console, interp);
    stale := obj.fields["Out"];
    denial := console.errors;

    obj.SetAllowed(true);
    obj.EvaluateBoundExpression(eval);
    assert obj.fields == map["In" := Str("bye Polly"), "Out" := Str("hello Polly")];
    var _ := obj.Execute(console, interp);
    allowed := obj.fields["Out"];
  }
}
