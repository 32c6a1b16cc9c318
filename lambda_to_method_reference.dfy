/**
 * The decision procedure that replaces a lambda by an equivalent method
 * reference (the reference forms of section 15.13 of the Java Language
 * Specification, lambda bodies as in its section 15.27).
 *
 * The functions below specify the decision; the methods are the visitor and its
 * helpers as the recipe runs them (loops, early returns), each proved to
 * compute what its specification function says.
 */
module LambdaToMethodReference {
  import opened JavaTree

  // ---------------------------------------------------------------------------
  // Collaborators and results
  // ---------------------------------------------------------------------------

  /**
   * What the factory `newClassLiteral(type, qualified)` builds: the literal
   * `X.class` for `target`, together with the methods of its raw class
   * (the class of class objects), as type attribution lists them.
   */
  datatype ClassLiteral = ClassLiteral(target: Option<JavaType>, qualified: bool, classMethods: seq<Method>)

  /** The factory itself; it may build nothing (it returns null). */
  type ClassLiteralFactory = (Option<JavaType>, bool) -> Option<ClassLiteral>

  /** The replacement node built for an accepted lambda. */
  datatype Reference =
    | ClassLiteralRef(literal: ClassLiteral, referenced: Method)  // X.class::isInstance, X.class::cast
    | ObjectsRef(isNull: bool)                                    // java.util.Objects::isNull or ::nonNull
    | StaticRef(referenced: Method)                               // Owner::method, static or unbound
    | ConstructorRef(clazz: J, referenced: Method)                // Type::new
    | BoundRef(select: J, referenced: Method)                     // select::method
    | ThisRef(thisType: Option<JavaType>, referenced: Method)     // this::method

  /** A replacement keeps the lambda's leading whitespace and its type. */
  datatype Replacement = Replacement(prefix: string, typ: Option<JavaType>, reference: Reference)

  datatype Outcome =
      // the visitor returns `l`, the lambda rebuilt around its visited body
    | Unchanged
      // the lambda is replaced; `shortensImports` records that an import
      // shortening pass over the new node was scheduled after this visit
    | Rewritten(replacement: Replacement, shortensImports: bool)
      // the cursor has no ancestor of the kind looked for, so the cursor
      // lookup raises an IllegalStateException
    | NoEnclosingScope

  // ---------------------------------------------------------------------------
  // Node shapes
  // ---------------------------------------------------------------------------

  /**
   * The body analysed: a block of exactly one statement stands for that
   * statement, and a `return` for its (possibly absent) expression.
   */
  function UnwrappedBody(body: J): Option<J>
  {
    if body.Block? && |body.statements| == 1 then
      var statement := body.statements[0];
      if statement.Return? then statement.value else Some(statement)
    else
      Some(body)
  }

  /** The `MethodCall` kinds: invocations, constructor calls and method references. */
  predicate IsMethodCall(j: J)
  {
    j.MethodInvocation? || j.NewClass? || j.MemberReference?
  }

  function MethodTypeOf(call: J): Option<Method>
  {
    match call
    case MethodInvocation(_, _, m, _) => m
    case NewClass(_, _, _, m, _) => m
    case MemberReference(_, _, m) => m
    case _ => None
  }

  /** The selector of a method invocation; other calls have none. */
  function SelectOf(call: J): Option<J>
  {
    if call.MethodInvocation? then call.select else None
  }

  /** The argument list of a call; a method reference has no arguments. */
  function CallArguments(call: J): seq<J>
  {
    match call
    case MethodInvocation(_, args, _, _) => args
    case NewClass(_, args, _, _, _) => args
    case _ => []
  }

  predicate IsGenericTypeVariable(t: Option<JavaType>)
  {
    t.Some? && t.value.GenericTypeVariable?
  }

  /** The call's type is parameterized with a generic type variable among its type arguments. */
  predicate HasGenericTypeArgument(t: Option<JavaType>)
  {
    t.Some? && t.value.Parameterized? &&
    exists i :: 0 <= i < |t.value.typeParameters| && t.value.typeParameters[i].GenericTypeVariable?
  }

  /** A parameterized class name `C<T>` stands for its raw class `C`. */
  function RawClass(clazz: J): J
  {
    if clazz.ParameterizedTypeTree? then clazz.clazz else clazz
  }

  /** The position of the first method called `name` (a stream `filter` then `findFirst`). */
  function FirstNamedIndex(ms: seq<Method>, name: string): (r: Option<nat>)
    ensures r.Some? ==> r.value < |ms| && ms[r.value].name == name
    ensures r.Some? ==> forall k :: 0 <= k < r.value ==> ms[k].name != name
    ensures r.None? ==> forall k :: 0 <= k < |ms| ==> ms[k].name != name
  {
    if ms == [] then None
    else if ms[0].name == name then Some(0)
    else
      match FirstNamedIndex(ms[1..], name)
      case None => None
      case Some(i) => Some(i + 1)
  }

  // ---------------------------------------------------------------------------
  // Null comparison
  // ---------------------------------------------------------------------------

  /** `j1` is an identifier and `j2` the literal `null`. */
  predicate IsNullCheck(j1: J, j2: J)
  {
    j1.Identifier? && j2.Literal? && j2.valueSource == Some("null")
  }

  /**
   * The recipe's condition as Java groups it: `&&` binds tighter than `||`, so
   * the operator is checked only when the identifier is on the left.
   */
  predicate NullComparisonAccepted(binary: J)
    requires binary.Binary?
  {
    ((binary.operator == Equal || binary.operator == NotEqual) && IsNullCheck(binary.left, binary.right))
    || IsNullCheck(binary.right, binary.left)
  }

  // ---------------------------------------------------------------------------
  // Safety predicates
  // ---------------------------------------------------------------------------

  /** The selector of an invocation is itself a call. */
  predicate SelectHasSideEffects(call: J)
  {
    call.MethodInvocation? && call.select.Some? && IsMethodCall(call.select.value)
  }

  /** A field owned by a class and not declared final. */
  predicate MightBeReassigned(field: Option<Variable>)
  {
    field.Some? && field.value.owner.Some? && field.value.owner.value.Class? && !field.value.isFinal
  }

  /** The selector names, directly or through a field access, a field that might be reassigned. */
  predicate SelectMightChange(call: J)
  {
    call.MethodInvocation? && call.select.Some? &&
    (match call.select.value
     case Identifier(_, field, _) => MightBeReassigned(field)
     case FieldAccess(_, _, field, _) => MightBeReassigned(field)
     case _ => false)
  }

  /** The selector is an identifier whose variable is the lambda's first parameter's, by identity. */
  predicate SelectMatchesFirstParameter(call: J, lambda: LambdaExpr)
  {
    call.MethodInvocation? && call.select.Some? && call.select.value.Identifier? &&
    |lambda.parameters| > 0 && lambda.parameters[0].VariableDeclarations? &&
    SameVariable(call.select.value.fieldType, lambda.parameters[0].first.variableType)
  }

  /** The elements of `s` that are not `J.Empty`, in order. */
  function NonEmpty(s: seq<J>): (r: seq<J>)
    ensures |r| <= |s|
  {
    if s == [] then []
    else
      var init := NonEmpty(s[..|s| - 1]);
      if s[|s| - 1].Empty? then init else init + [s[|s| - 1]]
  }

  /** The first declared variable of every parameter that is a variable declaration, in order. */
  function DeclaredParameters(ps: seq<J>): (r: seq<NamedVariable>)
    ensures |r| <= |ps|
  {
    if ps == [] then []
    else
      var init := DeclaredParameters(ps[..|ps| - 1]);
      var p := ps[|ps| - 1];
      if p.VariableDeclarations? then init + [p.first] else init
  }

  function MethodArguments(call: J): seq<J>
  {
    NonEmpty(CallArguments(call))
  }

  function LambdaParameters(lambda: LambdaExpr): seq<NamedVariable>
  {
    DeclaredParameters(lambda.parameters)
  }

  /** Position by position, every argument is an identifier of the very variable the parameter declares. */
  predicate Corresponds(args: seq<J>, params: seq<NamedVariable>)
  {
    |args| == |params| &&
    forall i :: 0 <= i < |params| ==>
      args[i].Identifier? && SameVariable(params[i].variableType, args[i].fieldType)
  }

  /**
   * The call passes the lambda's parameters through unchanged: the selector
   * counts as the first argument of a non-static invocation whose selector is
   * the first parameter.
   */
  predicate ArgumentsMatch(call: J, lambda: LambdaExpr)
  {
    MethodTypeOf(call).Some? &&
    var args := MethodArguments(call);
    var params := LambdaParameters(lambda);
    (args == [] && params == []) ||
    Corresponds(if !MethodTypeOf(call).value.isStatic && SelectMatchesFirstParameter(call, lambda)
                then [call.select.value] + args else args,
                params)
  }

  /** A sibling that makes a reference by `name` ambiguous. */
  predicate Clashes(m: Method, name: string)
  {
    m.name == name && m.name != "println" && !m.isConstructor
  }

  function ClashCount(ms: seq<Method>, name: string): nat
  {
    if ms == [] then 0
    else ClashCount(ms[..|ms| - 1], name) + (if Clashes(ms[|ms| - 1], name) then 1 else 0)
  }

  /** Two or more non-constructor methods of the declaring type share the invoked name. */
  predicate IsAmbiguous(m: Method)
  {
    ClashCount(MethodsOf(m.declaringType), m.name) > 1
  }

  function ConstructorCount(ms: seq<Method>): nat
  {
    if ms == [] then 0
    else ConstructorCount(ms[..|ms| - 1]) + (if ms[|ms| - 1].isConstructor then 1 else 0)
  }

  /** The type is a class with more than one constructor. */
  predicate HasMultipleConstructors(t: Option<JavaType>)
  {
    t.Some? && t.value.Class? && ConstructorCount(t.value.methods) > 1
  }

  // ---------------------------------------------------------------------------
  // The cursor: ancestors of the lambda, nearest first
  // ---------------------------------------------------------------------------

  /** The position of the nearest ancestor satisfying `p` (`Cursor.dropParentUntil`). */
  function DropParentUntil(ancestors: seq<J>, p: J -> bool): (r: Option<nat>)
    ensures r.Some? ==> r.value < |ancestors| && p(ancestors[r.value])
    ensures r.Some? ==> forall k :: 0 <= k < r.value ==> !p(ancestors[k])
    ensures r.None? ==> forall k :: 0 <= k < |ancestors| ==> !p(ancestors[k])
  {
    if ancestors == [] then None
    else if p(ancestors[0]) then Some(0)
    else
      match DropParentUntil(ancestors[1..], p)
      case None => None
      case Some(i) => Some(i + 1)
  }

  predicate IsInvocationOrUnit(j: J)
  {
    j.MethodInvocation? || j.CompilationUnit?
  }

  /** The scopes `this` can refer to: a class, an anonymous class body or a lambda. */
  predicate IsThisScope(j: J)
  {
    j.ClassDeclaration? || (j.NewClass? && j.hasBody) || j.Lambda?
  }

  /**
   * The lambda `l` is, as the same object, an argument of the nearest enclosing
   * method invocation; None when there is neither an invocation nor a
   * compilation unit above it.
   */
  function IsInvocationArgument(l: LambdaExpr, ancestors: seq<J>): Option<bool>
  {
    match DropParentUntil(ancestors, IsInvocationOrUnit)
    case None => None
    case Some(i) =>
      var parent := ancestors[i];
      Some(parent.MethodInvocation? && Lambda(l) in parent.arguments)
  }

  // ---------------------------------------------------------------------------
  // The decision
  // ---------------------------------------------------------------------------

  /**
   * The outcome of visiting `lambda` (the node its parent holds), whose body
   * after the visit of its children is `visitedBody`, below `ancestors`.
   */
  function Decide(lambda: LambdaExpr, visitedBody: J, ancestors: seq<J>, newClassLiteral: ClassLiteralFactory): Outcome
  {
    var l := lambda.(body := visitedBody);
    match UnwrappedBody(l.body)
    case None => Unchanged
    case Some(body) => DecideShape(lambda, l, body, ancestors, newClassLiteral)
  }

  /** First match wins: instanceof, then cast, then null comparison, then call. */
  function DecideShape(lambda: LambdaExpr, l: LambdaExpr, body: J, ancestors: seq<J>,
                       newClassLiteral: ClassLiteralFactory): Outcome
  {
    if body.InstanceOf? then InstanceOfOutcome(lambda, body, newClassLiteral)
    else if body.TypeCast? && |lambda.parameters| == 1 then CastOutcome(lambda, body, newClassLiteral)
    else if body.Binary? then NullCheckOutcome(lambda, body)
    else if IsMethodCall(body) then CallOutcome(lambda, l, body, ancestors)
    else Unchanged
  }

  function InstanceOfOutcome(lambda: LambdaExpr, instanceOf: J, newClassLiteral: ClassLiteralFactory): Outcome
    requires instanceOf.InstanceOf?
  {
    var clazz := instanceOf.clazz;
    if (clazz.Identifier? || clazz.FieldAccess?) && instanceOf.expression.Identifier? then
      match newClassLiteral(TypeOf(clazz), clazz.FieldAccess?)
      case None => Unchanged
      case Some(literal) =>
        match FirstNamedIndex(literal.classMethods, "isInstance")
        case None => Unchanged
        case Some(i) =>
          Rewritten(Replacement(lambda.prefix, lambda.typ, ClassLiteralRef(literal, literal.classMethods[i])), true)
    else
      Unchanged
  }

  function CastOutcome(lambda: LambdaExpr, cast: J, newClassLiteral: ClassLiteralFactory): Outcome
    requires cast.TypeCast? && |lambda.parameters| == 1
  {
    var param := lambda.parameters[0];
    if cast.expression.Identifier? && param.VariableDeclarations? &&
       cast.expression.simpleName == param.first.simpleName
    then
      var tree := cast.clazz;
      if (tree.Identifier? || tree.FieldAccess?) && !IsGenericTypeVariable(TypeOf(tree)) then
        match newClassLiteral(TypeOf(tree), tree.FieldAccess?)
        case None => Unchanged
        case Some(literal) =>
          match FirstNamedIndex(literal.classMethods, "cast")
          case None => Unchanged
          case Some(i) =>
            Rewritten(Replacement(lambda.prefix, lambda.typ, ClassLiteralRef(literal, literal.classMethods[i])), true)
      else
        Unchanged
    else
      Unchanged
  }

  function NullCheckOutcome(lambda: LambdaExpr, binary: J): Outcome
    requires binary.Binary?
  {
    if NullComparisonAccepted(binary) then
      Rewritten(Replacement(lambda.prefix, lambda.typ, ObjectsRef(binary.operator == Equal)), true)
    else
      Unchanged
  }

  /**
   * The constructor-ambiguity guard: Some(true) rejects a constructor call in a
   * lambda that is an argument of the nearest invocation when the class has
   * several constructors; None when the cursor lookup fails.
   */
  function ConstructorGuard(l: LambdaExpr, call: J, ancestors: seq<J>): Option<bool>
  {
    if !call.NewClass? then Some(false)
    else
      match IsInvocationArgument(l, ancestors)
      case None => None
      case Some(isArgument) => Some(isArgument && HasMultipleConstructors(call.typ))
  }

  function CallOutcome(lambda: LambdaExpr, l: LambdaExpr, call: J, ancestors: seq<J>): Outcome
    requires IsMethodCall(call)
  {
    if call.NewClass? && call.hasBody then Unchanged
    else if call.MemberReference? then Unchanged
    else
      match ConstructorGuard(l, call, ancestors)
      case None => NoEnclosingScope
      case Some(rejected) =>
        if rejected || MethodTypeOf(call).None? || SelectHasSideEffects(call) ||
           SelectMightChange(call) || !ArgumentsMatch(call, lambda)
        then Unchanged
        else BuildOutcome(lambda, call, MethodTypeOf(call).value, ancestors)
  }

  /** The builder for an accepted call, after the overload-ambiguity guard. */
  function BuildOutcome(lambda: LambdaExpr, call: J, methodType: Method, ancestors: seq<J>): Outcome
  {
    if IsAmbiguous(methodType) then Unchanged
    else if methodType.isStatic || SelectMatchesFirstParameter(call, lambda) then
      if HasGenericTypeArgument(TypeOf(call)) then Unchanged
      else Rewritten(Replacement(lambda.prefix, lambda.typ, StaticRef(methodType)), true)
    else if call.NewClass? then
      Rewritten(Replacement(lambda.prefix, lambda.typ, ConstructorRef(RawClass(call.clazz), methodType)), false)
    else if SelectOf(call).Some? then
      Rewritten(Replacement(lambda.prefix, lambda.typ, BoundRef(SelectOf(call).value, methodType)), false)
    else
      match DropParentUntil(ancestors, IsThisScope)
      case None => NoEnclosingScope
      case Some(i) =>
        Rewritten(Replacement(lambda.prefix, lambda.typ, ThisRef(TypeOf(ancestors[i]), methodType)), false)
  }

  // ---------------------------------------------------------------------------
  // The visitor and its helpers
  // ---------------------------------------------------------------------------

  /** `getMethodArguments`: collects the non-empty arguments of a call. */
  method GetMethodArguments(call: J) returns (list: seq<J>)
    ensures list == MethodArguments(call)
  {
    var elements := CallArguments(call);
    list := [];
    for k := 0 to |elements|
      invariant list == NonEmpty(elements[..k])
    {
      assert elements[..k + 1][..k] == elements[..k];
      if !elements[k].Empty? {
        list := list + [elements[k]];
      }
    }
    assert elements[..|elements|] == elements;
  }

  /** `getLambdaParameters`: the first variable of every parameter declaration. */
  method GetLambdaParameters(lambda: LambdaExpr) returns (list: seq<NamedVariable>)
    ensures list == LambdaParameters(lambda)
  {
    var params := lambda.parameters;
    list := [];
    for k := 0 to |params|
      invariant list == DeclaredParameters(params[..k])
    {
      assert params[..k + 1][..k] == params[..k];
      if params[k].VariableDeclarations? {
        list := list + [params[k].first];
      }
    }
    assert params[..|params|] == params;
  }

  /** `methodArgumentsMatchLambdaParameters`. */
  method MethodArgumentsMatchLambdaParameters(call: J, lambda: LambdaExpr) returns (matches: bool)
    ensures matches == ArgumentsMatch(call, lambda)
  {
    var methodType := MethodTypeOf(call);
    if methodType.None? {
      return false;
    }
    var isStatic := methodType.value.isStatic;
    var methodArgs := GetMethodArguments(call);
    var lambdaParameters := GetLambdaParameters(lambda);
    if methodArgs == [] && lambdaParameters == [] {
      return true;
    }
    if !isStatic && SelectMatchesFirstParameter(call, lambda) {
      methodArgs := [call.select.value] + methodArgs;
    }
    if |methodArgs| != |lambdaParameters| {
      return false;
    }
    for i := 0 to |lambdaParameters|
      invariant forall k :: 0 <= k < i ==>
        methodArgs[k].Identifier? && SameVariable(lambdaParameters[k].variableType, methodArgs[k].fieldType)
    {
      var lambdaParam := lambdaParameters[i].variableType;
      if !methodArgs[i].Identifier? {
        return false;
      }
      var methodArgument := methodArgs[i].fieldType;
      if !SameVariable(lambdaParam, methodArgument) {
        return false;
      }
    }
    return true;
  }

  lemma {:induction false} ClashCountOfPrefix(ms: seq<Method>, k: nat, name: string)
    requires k <= |ms|
    ensures ClashCount(ms[..k], name) <= ClashCount(ms, name)
    decreases |ms|
  {
    if k < |ms| {
      assert ms[..|ms| - 1][..k] == ms[..k];
      ClashCountOfPrefix(ms[..|ms| - 1], k, name);
    } else {
      assert ms[..k] == ms;
    }
  }

  /** `isMethodReferenceAmbiguous`: counts clashing siblings, stopping at the second. */
  method IsMethodReferenceAmbiguous(m: Method) returns (ambiguous: bool)
    ensures ambiguous == IsAmbiguous(m)
  {
    var ms := MethodsOf(m.declaringType);
    var count := 0;
    for k := 0 to |ms|
      invariant count == ClashCount(ms[..k], m.name) && count <= 1
    {
      assert ms[..k + 1][..k] == ms[..k];
      var meth := ms[k];
      if meth.name == m.name && meth.name != "println" && !meth.isConstructor {
        count := count + 1;
        if count > 1 {
          ClashCountOfPrefix(ms, k + 1, m.name);
          return true;
        }
      }
    }
    assert ms[..|ms|] == ms;
    return false;
  }

  /** The `instanceof` branch of `visitLambda`. */
  method VisitInstanceOf(lambda: LambdaExpr, b: J, newClassLiteral: ClassLiteralFactory) returns (outcome: Outcome)
    requires b.InstanceOf?
    ensures outcome == InstanceOfOutcome(lambda, b, newClassLiteral)
  {
    var j := b.clazz;
    if (j.Identifier? || j.FieldAccess?) && b.expression.Identifier? {
      var classLiteral := newClassLiteral(TypeOf(j), j.FieldAccess?);
      if classLiteral.Some? {
        var isInstanceMethod := FirstNamedIndex(classLiteral.value.classMethods, "isInstance");
        if isInstanceMethod.Some? {
          var referenced := classLiteral.value.classMethods[isInstanceMethod.value];
          return Rewritten(Replacement(lambda.prefix, lambda.typ, ClassLiteralRef(classLiteral.value, referenced)), true);
        }
      }
    }
    return Unchanged;
  }

  /** The cast branch of `visitLambda`, for a lambda of one parameter. */
  method VisitCast(lambda: LambdaExpr, b: J, newClassLiteral: ClassLiteralFactory) returns (outcome: Outcome)
    requires b.TypeCast? && |lambda.parameters| == 1
    ensures outcome == CastOutcome(lambda, b, newClassLiteral)
  {
    var param := lambda.parameters[0];
    if b.expression.Identifier? && param.VariableDeclarations? &&
       b.expression.simpleName == param.first.simpleName
    {
      var tree := b.clazz;
      if (tree.Identifier? || tree.FieldAccess?) && !IsGenericTypeVariable(TypeOf(tree)) {
        var classLiteral := newClassLiteral(TypeOf(tree), tree.FieldAccess?);
        if classLiteral.Some? {
          var castMethod := FirstNamedIndex(classLiteral.value.classMethods, "cast");
          if castMethod.Some? {
            var referenced := classLiteral.value.classMethods[castMethod.value];
            return Rewritten(Replacement(lambda.prefix, lambda.typ, ClassLiteralRef(classLiteral.value, referenced)), true);
          }
        }
      }
    }
    return Unchanged;
  }

  /** The method-call branch of `visitLambda`: the guards, then the reference builders. */
  method VisitCall(lambda: LambdaExpr, l: LambdaExpr, b: J, ancestors: seq<J>) returns (outcome: Outcome)
    requires IsMethodCall(b)
    ensures outcome == CallOutcome(lambda, l, b, ancestors)
  {
    if b.NewClass? {
      if b.hasBody {
        return Unchanged;
      }
      var isArgument := IsInvocationArgument(l, ancestors);
      if isArgument.None? {
        return NoEnclosingScope;
      }
      if isArgument.value && b.typ.Some? && b.typ.value.Class? {
        if ConstructorCount(b.typ.value.methods) > 1 {
          return Unchanged;
        }
      }
    } else if b.MemberReference? {
      return Unchanged;
    }

    if MethodTypeOf(b).None? || SelectHasSideEffects(b) || SelectMightChange(b) {
      return Unchanged;
    }
    var matches := MethodArgumentsMatchLambdaParameters(b, lambda);
    if !matches {
      return Unchanged;
    }

    var methodType := MethodTypeOf(b).value;
    var ambiguous := IsMethodReferenceAmbiguous(methodType);
    if ambiguous {
      return Unchanged;
    }
    var select := SelectOf(b);
    if methodType.isStatic || SelectMatchesFirstParameter(b, lambda) {
      if HasGenericTypeArgument(TypeOf(b)) {
        return Unchanged;
      }
      return Rewritten(Replacement(lambda.prefix, lambda.typ, StaticRef(methodType)), true);
    } else if b.NewClass? {
      return Rewritten(Replacement(lambda.prefix, lambda.typ, ConstructorRef(RawClass(b.clazz), methodType)), false);
    } else if select.Some? {
      return Rewritten(Replacement(lambda.prefix, lambda.typ, BoundRef(select.value, methodType)), false);
    } else {
      var owner := DropParentUntil(ancestors, IsThisScope);
      if owner.None? {
        return NoEnclosingScope;
      }
      return Rewritten(Replacement(lambda.prefix, lambda.typ, ThisRef(TypeOf(ancestors[owner.value]), methodType)), false);
    }
  }

  /** `visitLambda`, given the lambda's body after its children were visited. */
  method VisitLambda(lambda: LambdaExpr, visitedBody: J, ancestors: seq<J>, newClassLiteral: ClassLiteralFactory)
    returns (outcome: Outcome)
    ensures outcome == Decide(lambda, visitedBody, ancestors, newClassLiteral)
  {
    var l := lambda.(body := visitedBody);
    var body := Some(l.body);
    if l.body.Block? && |l.body.statements| == 1 {
      var statement := l.body.statements[0];
      if statement.Return? {
        body := statement.value;
      } else {
        body := Some(statement);
      }
    }
    if body.None? {
      // a `return;` body: no shape test holds of a missing expression
      return Unchanged;
    }
    var b := body.value;

    if b.InstanceOf? {
      outcome := VisitInstanceOf(lambda, b, newClassLiteral);
      return;
    } else if b.TypeCast? && |l.parameters| == 1 {
      outcome := VisitCast(lambda, b, newClassLiteral);
      return;
    }

    if b.Binary? {
      if NullComparisonAccepted(b) {
        return Rewritten(Replacement(l.prefix, l.typ, ObjectsRef(b.operator == Equal)), true);
      }
    } else if IsMethodCall(b) {
      outcome := VisitCall(lambda, l, b, ancestors);
      return;
    }
    return Unchanged;
  }
}
