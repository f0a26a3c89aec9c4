/**
 * What the trust gate guarantees across saving, loading, expression
 * evaluation and any sequence of user actions.
 */
module TrustProperties {
  import opened Wrappers
  import opened ScriptedObject

  /** Neither the flag nor a bound expression can let the script run. */
  predicate Untrusted(s: EntityState)
  {
    !s.allowExecution && s.allowExpr == None
  }

  /** Running the restore hook twice is the same as running it once. */
  lemma RestoredIdempotent(s: EntityState)
    ensures Restored(Restored(s)) == Restored(s)
    ensures Untrusted(Restored(s))
  {
  }

  /** Saving and loading keeps the name, the script and the properties, and
      loses the trust: the flag is false even if it was true when saved. */
  lemma SaveLoadRoundTrip(s: EntityState)
    ensures Loaded(Save(s)) == Restored(s)
    ensures Loaded(Save(s)).definition == s.definition && Loaded(Save(s)).fields == s.fields
    ensures Untrusted(Loaded(Save(s)))
  {
  }

  /** Whatever a file holds for the flag or binds to it, the object is denied
      once loaded, the expression pass cannot change that, and recomputing it
      reports the denial and writes nothing. */
  lemma LoadedObjectIsDenied(saved: SavedObject, eval: Evaluator, interp: Interpreter)
    ensures var t := EvaluateExpressions(Loaded(saved), eval);
      Untrusted(t) &&
      ExecuteStep(t, interp) == Execution(t, [DenialMessage(saved.name)], None) &&
      t.fields == saved.fields && t.definition == saved.definition
  {
  }

  /** Before a reload an expression that evaluates to true overrides a plain
      `False` assignment, so resetting the flag alone would not close the gate;
      after a reload the same object has no expression and stays denied. */
  lemma ExpressionCannotResurrectTrust(s: EntityState, e: Expr, eval: Evaluator)
    requires s.allowExpr == Some(e) && eval(e, s.fields)
    ensures EvaluateExpressions(Assigned(s, false), eval).allowExecution
    ensures Untrusted(EvaluateExpressions(Loaded(Save(s)), eval))
  {
  }

  /** After a load, assigning the flag is what the next recompute sees. */
  lemma AssignmentAfterLoadIsEffective(saved: SavedObject, allow: bool, eval: Evaluator)
    ensures EvaluateExpressions(Assigned(Loaded(saved), allow), eval).allowExecution == allow
  {
  }

  // ---------------------------------------------------------------------------
  // Sessions: any sequence of user actions and document reloads

  /** What a user, a script author or a document file can do to one object. */
  datatype Action =
    | Assign(allow: bool)                       // obj.AllowExecution = allow
    | Bind(expr: Option<Expr>)                  // obj.setExpression("AllowExecution", expr)
    | Edit(definition: string)                  // obj.Definition = definition
    | Input(key: string, value: Value)          // obj.<key> = value, key a user-declared
                                                //   property: never Definition (Edit)
                                                //   or AllowExecution (Assign)
    | Recompute                                 // expression pass, then execute
    | Reload(tamper: SavedObject -> SavedObject) // save, edit the file anyhow, reopen

  /** An explicit, in-session act that may let the script run. */
  predicate Grants(a: Action)
  {
    (a.Assign? && a.allow) || (a.Bind? && a.expr.Some?)
  }

  function Step(s: EntityState, a: Action, eval: Evaluator, interp: Interpreter): EntityState
  {
    match a
    case Assign(allow) => Assigned(s, allow)
    case Bind(e) => Bound(s, e)
    case Edit(d) => Redefined(s, d)
    case Input(k, v) => WithField(s, k, v)
    case Recompute => ExecuteStep(EvaluateExpressions(s, eval), interp).state
    case Reload(tamper) => Loaded(tamper(Save(s)))
  }

  /** The state after performing `acts` in order, starting from `s`. */
  function Replay(s: EntityState, acts: seq<Action>, eval: Evaluator, interp: Interpreter): EntityState
    decreases |acts|
  {
    if acts == [] then s
    else Step(Replay(s, acts[..|acts| - 1], eval, interp), acts[|acts| - 1], eval, interp)
  }

  /** Trust was granted since the last reload: by an explicit act, or, when
      there was no reload, by the starting state itself (a new object). */
  predicate GrantedSinceLoad(s: EntityState, acts: seq<Action>)
    decreases |acts|
  {
    if acts == [] then !Untrusted(s)
    else
      var a := acts[|acts| - 1];
      !a.Reload? && (Grants(a) || GrantedSinceLoad(s, acts[..|acts| - 1]))
  }

  /** The object may run its script only if it was created in this session and
      never reloaded, or if someone granted trust after the last reload: no
      reload, tampered file, expression or recompute re-enables it. */
  lemma {:induction false} TrustRequiresGrant(s: EntityState, acts: seq<Action>,
                                              eval: Evaluator, interp: Interpreter)
    ensures !GrantedSinceLoad(s, acts) ==> Untrusted(Replay(s, acts, eval, interp))
    ensures Replay(s, acts, eval, interp).allowExecution ==> GrantedSinceLoad(s, acts)
    decreases |acts|
  {
    if acts != [] {
      TrustRequiresGrant(s, acts[..|acts| - 1], eval, interp);
    }
  }

  /** `acts` with every recompute taken out. */
  function WithoutRecompute(acts: seq<Action>): (r: seq<Action>)
    ensures |r| <= |acts|
    decreases |acts|
  {
    if acts == [] then []
    else
      var init := WithoutRecompute(acts[..|acts| - 1]);
      if acts[|acts| - 1].Recompute? then init else init + [acts[|acts| - 1]]
  }

  /** Starting untrusted (for instance, right after a load), a session in which
      nobody grants trust ends exactly as if no recompute had happened: the
      script never writes anything. */
  lemma {:induction false} UngrantedRecomputesAreInert(s: EntityState, acts: seq<Action>,
                                                       eval: Evaluator, interp: Interpreter)
    requires Untrusted(s)
    requires forall i :: 0 <= i < |acts| ==> !Grants(acts[i])
    ensures Replay(s, acts, eval, interp) == Replay(s, WithoutRecompute(acts), eval, interp)
    ensures Untrusted(Replay(s, acts, eval, interp))
    decreases |acts|
  {
    if acts != [] {
      var init, a := acts[..|acts| - 1], acts[|acts| - 1];
      UngrantedRecomputesAreInert(s, init, eval, interp);
      var w := WithoutRecompute(init);
      var t := Replay(s, init, eval, interp);
      if !a.Recompute? {
        assert (w + [a])[..|w + [a]| - 1] == w;
      }
      assert !Grants(a);
    }
  }
}
