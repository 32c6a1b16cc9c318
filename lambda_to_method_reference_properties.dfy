/**
 * Properties of the lambda-to-method-reference decision: what each body shape
 * is rewritten to and exactly when, the safety guards every rewritten call has
 * passed, and how the builder is chosen.
 */
module LambdaToMethodReferenceProperties {
  import opened JavaTree
  import opened LambdaToMethodReference

  // ---------------------------------------------------------------------------
  // Helper lists
  // ---------------------------------------------------------------------------

  /** The non-empty arguments are exactly the arguments that are not `J.Empty`. */
  lemma {:induction false} NonEmptyMembers(s: seq<J>)
    ensures forall x :: x in NonEmpty(s) <==> x in s && !x.Empty?
  {
    if s != [] {
      NonEmptyMembers(s[..|s| - 1]);
      assert s == s[..|s| - 1] + [s[|s| - 1]];
    }
  }

  /** Without `J.Empty` elements the list is kept whole and in order. */
  lemma {:induction false} NonEmptyKeeps(s: seq<J>)
    requires forall i :: 0 <= i < |s| ==> !s[i].Empty?
    ensures NonEmpty(s) == s
  {
    if s != [] {
      NonEmptyKeeps(s[..|s| - 1]);
      assert s == s[..|s| - 1] + [s[|s| - 1]];
    }
  }

  /** When every parameter is a declaration, the parameters are their variables, position by position. */
  lemma {:induction false} DeclaredParametersAll(ps: seq<J>)
    requires forall i :: 0 <= i < |ps| ==> ps[i].VariableDeclarations?
    ensures |DeclaredParameters(ps)| == |ps|
    ensures forall i :: 0 <= i < |ps| ==> DeclaredParameters(ps)[i] == ps[i].first
  {
    if ps != [] {
      DeclaredParametersAll(ps[..|ps| - 1]);
    }
  }

  /** A parameter list like `()`, holding no declaration, declares no parameter. */
  lemma {:induction false} DeclaredParametersNone(ps: seq<J>)
    requires forall i :: 0 <= i < |ps| ==> !ps[i].VariableDeclarations?
    ensures DeclaredParameters(ps) == []
  {
    if ps != [] {
      DeclaredParametersNone(ps[..|ps| - 1]);
    }
  }

  // ---------------------------------------------------------------------------
  // Argument correspondence
  // ---------------------------------------------------------------------------

  /**
   * For a static call, or one whose selector does not stand for the first
   * parameter: the arguments match iff the collected arguments (`J.Empty`
   * placeholders dropped) are, position by position, identifiers of the very
   * variables the collected parameters declare.
   */
  lemma ArgumentsMatchPositional(call: J, lambda: LambdaExpr)
    requires MethodTypeOf(call).Some?
    requires MethodTypeOf(call).value.isStatic || !SelectMatchesFirstParameter(call, lambda)
    ensures ArgumentsMatch(call, lambda) <==>
      |MethodArguments(call)| == |LambdaParameters(lambda)| &&
      forall i :: 0 <= i < |LambdaParameters(lambda)| ==>
        MethodArguments(call)[i].Identifier? &&
        SameVariable(LambdaParameters(lambda)[i].variableType, MethodArguments(call)[i].fieldType)
  {
  }

  /** Matching the declared parameters is matching, position by position, the parameter trees' first variables. */
  lemma CorrespondsDeclared(args: seq<J>, ps: seq<J>)
    requires forall i :: 0 <= i < |ps| ==> ps[i].VariableDeclarations?
    ensures Corresponds(args, DeclaredParameters(ps)) <==>
      |args| == |ps| &&
      forall i :: 0 <= i < |ps| ==> args[i].Identifier? && SameVariable(ps[i].first.variableType, args[i].fieldType)
  {
    DeclaredParametersAll(ps);
  }

  /** A parameter list that starts with a declaration collects that declaration's variable first. */
  lemma {:induction false} DeclaredParametersHead(ps: seq<J>)
    requires |ps| > 0 && ps[0].VariableDeclarations?
    ensures |DeclaredParameters(ps)| > 0 && DeclaredParameters(ps)[0] == ps[0].first
  {
    if |ps| > 1 {
      var init := ps[..|ps| - 1];
      assert init[0] == ps[0];
      DeclaredParametersHead(init);
    }
  }

  /**
   * A non-static invocation `p.m(...)` whose selector is the first parameter
   * `p`: the selector takes the first collected parameter's place, and the
   * collected arguments must match the remaining parameters.
   */
  lemma SelectTakesFirstParameter(call: J, lambda: LambdaExpr)
    requires MethodTypeOf(call).Some? && !MethodTypeOf(call).value.isStatic
    requires SelectMatchesFirstParameter(call, lambda)
    ensures |LambdaParameters(lambda)| > 0 && LambdaParameters(lambda)[0] == lambda.parameters[0].first
    ensures ArgumentsMatch(call, lambda) <==>
      |MethodArguments(call)| + 1 == |LambdaParameters(lambda)| &&
      forall j :: 0 <= j < |MethodArguments(call)| ==>
        MethodArguments(call)[j].Identifier? &&
        SameVariable(LambdaParameters(lambda)[j + 1].variableType, MethodArguments(call)[j].fieldType)
  {
    DeclaredParametersHead(lambda.parameters);
    var args := MethodArguments(call);
    var params := LambdaParameters(lambda);
    assert ArgumentsMatch(call, lambda) <==> Corresponds([call.select.value] + args, params);
    if |args| + 1 == |params| {
      CorrespondsCons(call.select.value, args, params);
      assert forall j :: 0 <= j < |args| ==> params[1..][j] == params[j + 1];
    }
  }

  /** Matching a list headed by `x` is matching `x` with the first parameter and the rest with the rest. */
  lemma CorrespondsCons(x: J, args: seq<J>, params: seq<NamedVariable>)
    requires |params| == |args| + 1
    ensures Corresponds([x] + args, params) <==>
      x.Identifier? && SameVariable(params[0].variableType, x.fieldType) && Corresponds(args, params[1..])
  {
    var full := [x] + args;
    if x.Identifier? && SameVariable(params[0].variableType, x.fieldType) && Corresponds(args, params[1..]) {
      forall i | 0 <= i < |params|
        ensures full[i].Identifier? && SameVariable(params[i].variableType, full[i].fieldType)
      {
        if i > 0 {
          assert full[i] == args[i - 1] && params[i] == params[1..][i - 1];
        }
      }
    }
    if Corresponds(full, params) {
      assert full[0] == x;
      forall j | 0 <= j < |args|
        ensures args[j].Identifier? && SameVariable(params[1..][j].variableType, args[j].fieldType)
      {
        assert full[j + 1] == args[j];
      }
    }
  }

  /** The parameter `(a, b)` of a two-parameter lambda. */
  function TwoParameters(a: Variable, b: Variable): seq<J>
  {
    [VariableDeclarations(NamedVariable(a.name, Some(a)), []),
     VariableDeclarations(NamedVariable(b.name, Some(b)), [])]
  }

  function Use(v: Variable): J
  {
    Identifier(v.name, Some(v), None)
  }

  /**
   * `(a, b) -> target.m(b, a)` never passes the correspondence check, however
   * `target` and `m` resolve, while `(a, b) -> target.m(a, b)` passes it
   * unless the selector stands for the first parameter.
   */
  lemma ArgumentOrderFidelity(lambda: LambdaExpr, target: J, m: Method, t: Option<JavaType>, a: Variable, b: Variable)
    requires a.id != b.id
    requires lambda.parameters == TwoParameters(a, b)
    ensures !ArgumentsMatch(MethodInvocation(Some(target), [Use(b), Use(a)], Some(m), t), lambda)
    ensures m.isStatic || !SelectMatchesFirstParameter(MethodInvocation(Some(target), [], Some(m), t), lambda) ==>
      ArgumentsMatch(MethodInvocation(Some(target), [Use(a), Use(b)], Some(m), t), lambda)
  {
    DeclaredParametersAll(lambda.parameters);
    var params := LambdaParameters(lambda);
    assert params == [NamedVariable(a.name, Some(a)), NamedVariable(b.name, Some(b))];
    var swapped := MethodInvocation(Some(target), [Use(b), Use(a)], Some(m), t);
    NonEmptyKeeps(CallArguments(swapped));
    assert MethodArguments(swapped) == [Use(b), Use(a)];
    assert !Corresponds([Use(b), Use(a)], params) by {
      assert !SameVariable(params[0].variableType, Use(b).fieldType);
    }
    assert !Corresponds([target, Use(b), Use(a)], params);
    var inOrder := MethodInvocation(Some(target), [Use(a), Use(b)], Some(m), t);
    NonEmptyKeeps(CallArguments(inOrder));
    assert MethodArguments(inOrder) == [Use(a), Use(b)];
    assert Corresponds([Use(a), Use(b)], params);
  }

  // ---------------------------------------------------------------------------
  // Overload ambiguity
  // ---------------------------------------------------------------------------

  lemma {:induction false} ClashCountTwo(ms: seq<Method>, name: string)
    ensures ClashCount(ms, name) > 1 <==>
      exists i, j :: 0 <= i < j < |ms| && Clashes(ms[i], name) && Clashes(ms[j], name)
  {
    if ms != [] {
      var init := ms[..|ms| - 1];
      var last := |ms| - 1;
      ClashCountTwo(init, name);
      ClashCountOne(init, name);
      if ClashCount(ms, name) > 1 {
        if ClashCount(init, name) > 1 {
          var i, j :| 0 <= i < j < |init| && Clashes(init[i], name) && Clashes(init[j], name);
          assert ms[i] == init[i] && ms[j] == init[j];
        } else {
          var i :| 0 <= i < |init| && Clashes(init[i], name);
          assert ms[i] == init[i];
          assert Clashes(ms[last], name);
        }
      } else {
        if exists i, j :: 0 <= i < j < |ms| && Clashes(ms[i], name) && Clashes(ms[j], name) {
          var i, j :| 0 <= i < j < |ms| && Clashes(ms[i], name) && Clashes(ms[j], name);
          assert init[i] == ms[i];
        }
      }
    }
  }

  lemma {:induction false} ClashCountOne(ms: seq<Method>, name: string)
    ensures ClashCount(ms, name) > 0 <==> exists i :: 0 <= i < |ms| && Clashes(ms[i], name)
  {
    if ms != [] {
      var init := ms[..|ms| - 1];
      ClashCountOne(init, name);
      if exists i :: 0 <= i < |init| && Clashes(init[i], name) {
        var i :| 0 <= i < |init| && Clashes(init[i], name);
        assert ms[i] == init[i];
      }
      if exists i :: 0 <= i < |ms| && Clashes(ms[i], name) {
        var i :| 0 <= i < |ms| && Clashes(ms[i], name);
        if i < |ms| - 1 {
          assert init[i] == ms[i];
        }
      }
    }
  }

  /** A reference is ambiguous iff two distinct non-constructor siblings share the invoked name. */
  lemma AmbiguousIffTwoSiblings(m: Method)
    ensures IsAmbiguous(m) <==>
      exists i, j :: 0 <= i < j < |MethodsOf(m.declaringType)| &&
        Clashes(MethodsOf(m.declaringType)[i], m.name) && Clashes(MethodsOf(m.declaringType)[j], m.name)
  {
    var ms := MethodsOf(m.declaringType);
    ClashCountTwo(ms, m.name);
    if IsAmbiguous(m) {
      var i, j :| 0 <= i < j < |ms| && Clashes(ms[i], m.name) && Clashes(ms[j], m.name);
    }
  }

  /** `println` is exempt: however overloaded, it is never ambiguous. */
  lemma PrintlnNeverAmbiguous(m: Method)
    requires m.name == "println"
    ensures !IsAmbiguous(m)
  {
    ClashCountOne(MethodsOf(m.declaringType), m.name);
  }

  // ---------------------------------------------------------------------------
  // Body unwrapping
  // ---------------------------------------------------------------------------

  /** A block with other than exactly one statement is never rewritten. */
  lemma MultiStatementBlockUnchanged(lambda: LambdaExpr, visitedBody: J, ancestors: seq<J>, f: ClassLiteralFactory)
    requires visitedBody.Block? && |visitedBody.statements| != 1
    ensures Decide(lambda, visitedBody, ancestors, f) == Unchanged
  {
  }

  /**
   * A one-statement block is analysed as its statement, a `return` as its
   * expression, and `return;` is left unchanged.
   */
  lemma SingleStatementUnwrapped(lambda: LambdaExpr, s: J, ancestors: seq<J>, f: ClassLiteralFactory)
    ensures var l := lambda.(body := Block([s]));
      Decide(lambda, Block([s]), ancestors, f) ==
        if !s.Return? then DecideShape(lambda, l, s, ancestors, f)
        else if s.value.Some? then DecideShape(lambda, l, s.value.value, ancestors, f)
        else Unchanged
  {
  }

  // ---------------------------------------------------------------------------
  // Shapes
  // ---------------------------------------------------------------------------

  /**
   * `x -> x instanceof X` becomes `X.class::isInstance` exactly when the operand
   * is an identifier, the type an identifier or field access, the class literal
   * builds and its class has an `isInstance` method; the reference is then to
   * the first such method. Otherwise the lambda is left as it is, no later rule
   * being tried.
   */
  lemma InstanceOfShape(lambda: LambdaExpr, visitedBody: J, ancestors: seq<J>, f: ClassLiteralFactory, body: J)
    requires UnwrappedBody(visitedBody) == Some(body) && body.InstanceOf?
    ensures var r := Decide(lambda, visitedBody, ancestors, f);
      var literal := f(TypeOf(body.clazz), body.clazz.FieldAccess?);
      r != NoEnclosingScope &&
      (r.Rewritten? <==>
        (body.clazz.Identifier? || body.clazz.FieldAccess?) && body.expression.Identifier? &&
        literal.Some? &&
        exists i :: 0 <= i < |literal.value.classMethods| && literal.value.classMethods[i].name == "isInstance") &&
      (r.Rewritten? ==>
        r.shortensImports && r.replacement.reference.ClassLiteralRef? &&
        r.replacement.reference.literal == literal.value &&
        exists i :: 0 <= i < |literal.value.classMethods| &&
          r.replacement.reference.referenced == literal.value.classMethods[i] &&
          literal.value.classMethods[i].name == "isInstance" &&
          forall k :: 0 <= k < i ==> literal.value.classMethods[k].name != "isInstance")
  {
  }

  /**
   * `x -> (X) x` becomes `X.class::cast` exactly when the lambda has one
   * parameter, the operand is an identifier with that parameter's name, the
   * type is an identifier or field access that is not a type variable, the
   * class literal builds and its class has a `cast` method, the first of which
   * is referenced.
   */
  lemma CastShape(lambda: LambdaExpr, visitedBody: J, ancestors: seq<J>, f: ClassLiteralFactory, body: J)
    requires UnwrappedBody(visitedBody) == Some(body) && body.TypeCast?
    ensures var r := Decide(lambda, visitedBody, ancestors, f);
      var literal := f(TypeOf(body.clazz), body.clazz.FieldAccess?);
      r != NoEnclosingScope &&
      (r.Rewritten? <==>
        |lambda.parameters| == 1 && lambda.parameters[0].VariableDeclarations? &&
        body.expression.Identifier? && body.expression.simpleName == lambda.parameters[0].first.simpleName &&
        (body.clazz.Identifier? || body.clazz.FieldAccess?) && !IsGenericTypeVariable(TypeOf(body.clazz)) &&
        literal.Some? &&
        exists i :: 0 <= i < |literal.value.classMethods| && literal.value.classMethods[i].name == "cast") &&
      (r.Rewritten? ==>
        r.shortensImports && r.replacement.reference.ClassLiteralRef? &&
        r.replacement.reference.literal == literal.value &&
        exists i :: 0 <= i < |literal.value.classMethods| &&
          r.replacement.reference.referenced == literal.value.classMethods[i] &&
          literal.value.classMethods[i].name == "cast" &&
          forall k :: 0 <= k < i ==> literal.value.classMethods[k].name != "cast")
  {
  }

  /**
   * A comparison with `null` becomes `Objects::isNull` for `==` and
   * `Objects::nonNull` for any other operator; `ident <op> null` is accepted for
   * `==` and `!=` only, `null <op> ident` for every operator.
   */
  lemma NullComparisonShape(lambda: LambdaExpr, visitedBody: J, ancestors: seq<J>, f: ClassLiteralFactory, body: J)
    requires UnwrappedBody(visitedBody) == Some(body) && body.Binary?
    ensures var r := Decide(lambda, visitedBody, ancestors, f);
      var isNullLiteral := (j: J) => j.Literal? && j.valueSource == Some("null");
      r != NoEnclosingScope &&
      (r.Rewritten? <==>
        (body.left.Identifier? && isNullLiteral(body.right) && (body.operator == Equal || body.operator == NotEqual)) ||
        (body.right.Identifier? && isNullLiteral(body.left))) &&
      (r.Rewritten? ==>
        r == Rewritten(Replacement(lambda.prefix, lambda.typ, ObjectsRef(body.operator == Equal)), true))
  {
  }

  /** `x -> null + x`, or `null` before any other operator, is still rewritten, to `Objects::nonNull`. */
  lemma NullOnTheLeftAnyOperator(lambda: LambdaExpr, ancestors: seq<J>, f: ClassLiteralFactory, op: BinaryOp, x: J)
    requires x.Identifier? && op != Equal
    ensures Decide(lambda, Binary(Literal(Some("null")), op, x), ancestors, f) ==
      Rewritten(Replacement(lambda.prefix, lambda.typ, ObjectsRef(false)), true)
  {
  }

  /** `x -> x + null` (an operator other than `==` and `!=`) is left unchanged. */
  lemma IdentifierOnTheLeftNeedsEquality(lambda: LambdaExpr, ancestors: seq<J>, f: ClassLiteralFactory, op: BinaryOp, x: J)
    requires x.Identifier? && op != Equal && op != NotEqual
    ensures Decide(lambda, Binary(x, op, Literal(Some("null"))), ancestors, f) == Unchanged
  {
  }

  /**
   * The compared identifier need not be a parameter of the lambda: for every
   * lambda, `other == null` becomes `Objects::isNull`.
   */
  lemma NullCheckOperandNotTiedToParameter(lambda: LambdaExpr, ancestors: seq<J>, f: ClassLiteralFactory, other: J)
    requires other.Identifier?
    ensures Decide(lambda, Binary(other, Equal, Literal(Some("null"))), ancestors, f) ==
      Rewritten(Replacement(lambda.prefix, lambda.typ, ObjectsRef(true)), true)
  {
  }

  /**
   * The tested identifier need not be a parameter of the lambda either:
   * for every lambda, `other instanceof X` becomes `X.class::isInstance` once
   * the literal builds with an `isInstance` method.
   */
  lemma InstanceOfOperandNotTiedToParameter(lambda: LambdaExpr, ancestors: seq<J>, f: ClassLiteralFactory,
                                            other: J, clazz: J)
    requires other.Identifier? && clazz.Identifier?
    requires f(TypeOf(clazz), false).Some?
    requires var methods := f(TypeOf(clazz), false).value.classMethods;
      exists i :: 0 <= i < |methods| && methods[i].name == "isInstance"
    ensures Decide(lambda, InstanceOf(other, clazz), ancestors, f).Rewritten?
  {
  }

  // ---------------------------------------------------------------------------
  // Calls
  // ---------------------------------------------------------------------------

  /** The call shapes the recipe refuses to rewrite. */
  lemma CallRejections(lambda: LambdaExpr, visitedBody: J, ancestors: seq<J>, f: ClassLiteralFactory, body: J)
    requires UnwrappedBody(visitedBody) == Some(body) && IsMethodCall(body)
    ensures var r := Decide(lambda, visitedBody, ancestors, f);
      (body.NewClass? && body.hasBody ==> r == Unchanged) &&
      (body.MemberReference? ==> r == Unchanged) &&
      (MethodTypeOf(body).None? ==> !r.Rewritten?) &&
      (SelectHasSideEffects(body) ==> !r.Rewritten?) &&
      (SelectMightChange(body) ==> !r.Rewritten?) &&
      (!ArgumentsMatch(body, lambda) ==> !r.Rewritten?) &&
      (MethodTypeOf(body).Some? && IsAmbiguous(MethodTypeOf(body).value) ==> !r.Rewritten?)
  {
  }

  /**
   * The lambda, as the same object, is an argument of the nearest enclosing
   * invocation exactly when that ancestor is an invocation holding it; the
   * lookup fails exactly when there is neither an invocation nor a compilation
   * unit above the lambda.
   */
  lemma InvocationArgumentIff(l: LambdaExpr, ancestors: seq<J>)
    ensures IsInvocationArgument(l, ancestors).None? <==>
      forall k :: 0 <= k < |ancestors| ==> !IsInvocationOrUnit(ancestors[k])
    ensures IsInvocationArgument(l, ancestors) == Some(true) <==>
      exists i ::
        0 <= i < |ancestors| && ancestors[i].MethodInvocation? && Lambda(l) in ancestors[i].arguments &&
        (forall k :: 0 <= k < i ==> !IsInvocationOrUnit(ancestors[k]))
  {
    match DropParentUntil(ancestors, IsInvocationOrUnit)
    case None =>
    case Some(j) =>
      assert IsInvocationOrUnit(ancestors[j]);
      if exists i ::
        0 <= i < |ancestors| && ancestors[i].MethodInvocation? && Lambda(l) in ancestors[i].arguments &&
        (forall k :: 0 <= k < i ==> !IsInvocationOrUnit(ancestors[k]))
      {
        var i :|
          0 <= i < |ancestors| && ancestors[i].MethodInvocation? && Lambda(l) in ancestors[i].arguments &&
          (forall k :: 0 <= k < i ==> !IsInvocationOrUnit(ancestors[k]));
        assert IsInvocationOrUnit(ancestors[i]);
        assert i == j;
      }
  }

  /**
   * A constructor call (the lambda's body, or its single statement or returned
   * expression) of a class with several constructors is left as it is when the
   * lambda, as the same object, is an argument of the nearest enclosing
   * invocation.
   */
  lemma ConstructorAmbiguityRejected(lambda: LambdaExpr, visitedBody: J, ancestors: seq<J>, f: ClassLiteralFactory, call: J)
    requires UnwrappedBody(visitedBody) == Some(call)
    requires call.NewClass? && !call.hasBody
    requires HasMultipleConstructors(call.typ)
    requires exists i ::
      0 <= i < |ancestors| && ancestors[i].MethodInvocation? &&
      Lambda(lambda.(body := visitedBody)) in ancestors[i].arguments &&
      (forall k :: 0 <= k < i ==> !IsInvocationOrUnit(ancestors[k]))
    ensures Decide(lambda, visitedBody, ancestors, f) == Unchanged
  {
    InvocationArgumentIff(lambda.(body := visitedBody), ancestors);
  }

  /**
   * A call is rewritten exactly when it passes every guard: it is an
   * invocation or a constructor call without a class body that passed the
   * constructor-ambiguity guard, its method resolved and is not ambiguous, its
   * selector is no call and no reassignable field, its arguments pass the
   * lambda's parameters through in order, a static-style reference has no
   * type-variable argument, and an invocation without a selector has an
   * enclosing class, anonymous class body or lambda that `this` can name.
   */
  lemma CallRewrittenIff(lambda: LambdaExpr, visitedBody: J, ancestors: seq<J>, f: ClassLiteralFactory, body: J)
    requires UnwrappedBody(visitedBody) == Some(body) && IsMethodCall(body)
    ensures Decide(lambda, visitedBody, ancestors, f).Rewritten? <==>
      (body.MethodInvocation? || (body.NewClass? && !body.hasBody)) &&
      ConstructorGuard(lambda.(body := visitedBody), body, ancestors) == Some(false) &&
      MethodTypeOf(body).Some? && !IsAmbiguous(MethodTypeOf(body).value) &&
      !SelectHasSideEffects(body) && !SelectMightChange(body) &&
      ArgumentsMatch(body, lambda) &&
      ((MethodTypeOf(body).value.isStatic || SelectMatchesFirstParameter(body, lambda)) ==>
        !HasGenericTypeArgument(TypeOf(body))) &&
      ((body.MethodInvocation? && body.select.None? && !MethodTypeOf(body).value.isStatic) ==>
        exists i :: 0 <= i < |ancestors| && IsThisScope(ancestors[i]))
  {
  }

  /**
   * `(a, b) -> target.m(a, b)` is rewritten, to `Owner::m` for a static `m`
   * and to `target::m` otherwise, whenever the guards about `target` and `m`
   * hold: `target` is no call and no reassignable field, `m` is not
   * ambiguous, a non-static `m` is not called on the first parameter, and a
   * static call's type has no type-variable argument.
   */
  lemma InOrderCallRewritten(lambda: LambdaExpr, ancestors: seq<J>, f: ClassLiteralFactory,
                             target: J, m: Method, t: Option<JavaType>, a: Variable, b: Variable)
    requires a.id != b.id
    requires lambda.parameters == TwoParameters(a, b)
    requires !IsMethodCall(target)
    requires !(target.Identifier? && MightBeReassigned(target.fieldType))
    requires !(target.FieldAccess? && MightBeReassigned(target.nameFieldType))
    requires !IsAmbiguous(m)
    requires m.isStatic || !SelectMatchesFirstParameter(MethodInvocation(Some(target), [], Some(m), t), lambda)
    requires m.isStatic ==> !HasGenericTypeArgument(t)
    ensures Decide(lambda, MethodInvocation(Some(target), [Use(a), Use(b)], Some(m), t), ancestors, f) ==
      Rewritten(Replacement(lambda.prefix, lambda.typ, if m.isStatic then StaticRef(m) else BoundRef(target, m)), m.isStatic)
  {
    ArgumentOrderFidelity(lambda, target, m, t, a, b);
  }

  /** An invocation whose selector is itself a call is never rewritten. */
  lemma CallSelectorKept(lambda: LambdaExpr, visitedBody: J, ancestors: seq<J>, f: ClassLiteralFactory, body: J)
    requires UnwrappedBody(visitedBody) == Some(body)
    requires body.MethodInvocation? && body.select.Some? && IsMethodCall(body.select.value)
    ensures Decide(lambda, visitedBody, ancestors, f) == Unchanged
  {
  }

  /**
   * An invocation on a field `v` that a class owns and that is not final,
   * named directly or through a field access, is never rewritten.
   */
  lemma ReassignableSelectorKept(lambda: LambdaExpr, visitedBody: J, ancestors: seq<J>, f: ClassLiteralFactory,
                                 body: J, v: Variable)
    requires UnwrappedBody(visitedBody) == Some(body)
    requires body.MethodInvocation? && body.select.Some?
    requires (body.select.value.Identifier? && body.select.value.fieldType == Some(v)) ||
             (body.select.value.FieldAccess? && body.select.value.nameFieldType == Some(v))
    requires v.owner.Some? && v.owner.value.Class? && !v.isFinal
    ensures Decide(lambda, visitedBody, ancestors, f) == Unchanged
  {
  }

  /**
   * An identifier selector stands for the first parameter by the identity of
   * its variable descriptor alone; its simple name plays no part.
   */
  lemma SelectMatchIsByIdentity(call: J, lambda: LambdaExpr, v: Variable)
    requires call.MethodInvocation? && call.select.Some? && call.select.value.Identifier?
    requires |lambda.parameters| > 0 && lambda.parameters[0].VariableDeclarations?
    requires lambda.parameters[0].first.variableType == Some(v)
    ensures SelectMatchesFirstParameter(call, lambda) <==>
      call.select.value.fieldType.Some? && call.select.value.fieldType.value.id == v.id
  {
  }

  /** A lambda without a declared first parameter never has its selector stand for it. */
  lemma SelectMatchNeedsDeclaredParameter(call: J, lambda: LambdaExpr)
    requires |lambda.parameters| == 0 || !lambda.parameters[0].VariableDeclarations?
    ensures !SelectMatchesFirstParameter(call, lambda)
  {
  }

  /**
   * The cursor lookups fail only for a call: a constructor call with neither
   * an invocation nor a compilation unit above the lambda, or an invocation
   * without a selector with no class, anonymous class body or lambda above it.
   */
  lemma RaisesOnlyWithoutScope(lambda: LambdaExpr, visitedBody: J, ancestors: seq<J>, f: ClassLiteralFactory)
    requires Decide(lambda, visitedBody, ancestors, f) == NoEnclosingScope
    ensures UnwrappedBody(visitedBody).Some?
    ensures var body := UnwrappedBody(visitedBody).value;
      (body.NewClass? && forall k :: 0 <= k < |ancestors| ==> !IsInvocationOrUnit(ancestors[k])) ||
      (body.MethodInvocation? && body.select.None? && forall k :: 0 <= k < |ancestors| ==> !IsThisScope(ancestors[k]))
  {
    var body := UnwrappedBody(visitedBody).value;
    if body.NewClass? {
      InvocationArgumentIff(lambda.(body := visitedBody), ancestors);
    }
  }

  /**
   * How the replacement for an accepted call is built: `Owner::method` for a
   * static method or a selector standing for the first parameter (unless the
   * call's type has a type-variable argument), `Type::new` with the raw class
   * for a constructor, `select::method` for any other selector, and otherwise
   * `this::method` typed by the nearest enclosing class, anonymous class body
   * or lambda.
   */
  lemma BuilderChoice(lambda: LambdaExpr, visitedBody: J, ancestors: seq<J>, f: ClassLiteralFactory, body: J)
    requires UnwrappedBody(visitedBody) == Some(body) && IsMethodCall(body)
    requires Decide(lambda, visitedBody, ancestors, f).Rewritten?
    ensures var r := Decide(lambda, visitedBody, ancestors, f);
      var m := MethodTypeOf(body).value;
      var ref := r.replacement.reference;
      !ref.ClassLiteralRef? && !ref.ObjectsRef? && ref.referenced == m &&
      (ref.StaticRef? <==> m.isStatic || SelectMatchesFirstParameter(body, lambda)) &&
      (ref.StaticRef? ==> !HasGenericTypeArgument(TypeOf(body))) &&
      (ref.ConstructorRef? <==> !ref.StaticRef? && body.NewClass?) &&
      (ref.ConstructorRef? ==> ref.clazz == RawClass(body.clazz)) &&
      (ref.BoundRef? <==> !ref.StaticRef? && body.MethodInvocation? && body.select.Some?) &&
      (ref.BoundRef? ==> ref.select == body.select.value) &&
      (ref.ThisRef? <==> !ref.StaticRef? && body.MethodInvocation? && body.select.None?) &&
      (ref.ThisRef? ==>
        (exists i :: 0 <= i < |ancestors| && IsThisScope(ancestors[i]) &&
           (forall k :: 0 <= k < i ==> !IsThisScope(ancestors[k])) && ref.thisType == TypeOf(ancestors[i])))
  {
    var r := Decide(lambda, visitedBody, ancestors, f);
    if r.replacement.reference.ThisRef? {
      var i := DropParentUntil(ancestors, IsThisScope).value;
      assert IsThisScope(ancestors[i]);
    }
  }

  /**
   * Every replacement keeps the lambda's prefix and type, and an import
   * shortening pass is scheduled exactly for the class-literal, `Objects` and
   * static-style references.
   */
  lemma ReplacementKeepsPrefixAndType(lambda: LambdaExpr, visitedBody: J, ancestors: seq<J>, f: ClassLiteralFactory)
    requires Decide(lambda, visitedBody, ancestors, f).Rewritten?
    ensures var r := Decide(lambda, visitedBody, ancestors, f);
      r.replacement.prefix == lambda.prefix && r.replacement.typ == lambda.typ &&
      (r.shortensImports <==>
        r.replacement.reference.ClassLiteralRef? || r.replacement.reference.ObjectsRef? ||
        r.replacement.reference.StaticRef?)
  {
  }
}
