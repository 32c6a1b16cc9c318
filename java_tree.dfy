/**
 * The typed Java tree that the rewrite rules read: resolved type, method and
 * variable descriptors (produced by type attribution, taken here as given), and
 * the node kinds the rules inspect. Descriptors carry an `id` standing for their
 * object identity, because the rules compare them with `==` and `!=`.
 */
module JavaTree {

  datatype Option<+T> = None | Some(value: T)

  /** A resolved type descriptor. */
  datatype JavaType =
    | Class(id: nat, fullyQualifiedName: string, methods: seq<Method>)
    | Parameterized(id: nat, raw: JavaType, typeParameters: seq<JavaType>)
    | GenericTypeVariable(id: nat, name: string)
      // primitives, arrays, method types (the owner of a local variable), unknown types
    | OtherType(id: nat)

  /** A resolved method descriptor; `declaringType` lists the sibling methods. */
  datatype Method = Method(id: nat, name: string, isStatic: bool, isConstructor: bool, declaringType: JavaType)

  /** A resolved variable descriptor: a field when its owner is a class. */
  datatype Variable = Variable(id: nat, name: string, owner: Option<JavaType>, isFinal: bool)

  /** One declared variable of a variable declaration (a lambda parameter). */
  datatype NamedVariable = NamedVariable(simpleName: string, variableType: Option<Variable>)

  datatype BinaryOp =
    | Addition | Subtraction | Multiplication | Division | Modulo
    | LessThan | GreaterThan | LessThanOrEqual | GreaterThanOrEqual
    | Equal | NotEqual
    | BitAnd | BitOr | BitXor | LeftShift | RightShift | UnsignedRightShift
    | Or | And

  datatype UnaryOp =
    | PreIncrement | PreDecrement | PostIncrement | PostDecrement
    | Positive | Negative | Complement | Not

  /** A tree node. Only the attributes the rewrite rules read are kept. */
  datatype J =
    | Identifier(simpleName: string, fieldType: Option<Variable>, typ: Option<JavaType>)
    | FieldAccess(target: J, name: string, nameFieldType: Option<Variable>, typ: Option<JavaType>)
    | Literal(valueSource: Option<string>)
    | MethodInvocation(select: Option<J>, arguments: seq<J>, methodType: Option<Method>, typ: Option<JavaType>)
    | NewClass(clazz: J, arguments: seq<J>, hasBody: bool, constructorType: Option<Method>, typ: Option<JavaType>)
    | MemberReference(containing: J, reference: string, methodType: Option<Method>)
    | InstanceOf(expression: J, clazz: J)
    | TypeCast(clazz: J, expression: J)
    | Binary(left: J, operator: BinaryOp, right: J)
    | Unary(unaryOperator: UnaryOp, expression: J)
    | Block(statements: seq<J>)
    | Return(value: Option<J>)
    | Empty
    | Lambda(node: LambdaExpr)
    | VariableDeclarations(first: NamedVariable, others: seq<NamedVariable>)
    | ParameterizedTypeTree(clazz: J, typeParameters: seq<J>)
    | ClassDeclaration(typ: Option<JavaType>)
    | CompilationUnit
    | OtherTree

  /** A lambda: its identity, leading whitespace, parameters, body and functional-interface type. */
  datatype LambdaExpr = LambdaExpr(id: nat, prefix: string, parameters: seq<J>, body: J, typ: Option<JavaType>)

  /** Java's `a == b` on two nullable variable descriptors: both null, or the same object. */
  predicate SameVariable(a: Option<Variable>, b: Option<Variable>)
  {
    (a.None? && b.None?) || (a.Some? && b.Some? && a.value.id == b.value.id)
  }

  /** `getMethods()` of a type: a parameterized type delegates to its raw class. */
  function MethodsOf(t: JavaType): seq<Method>
  {
    match t
    case Class(_, _, ms) => ms
    case Parameterized(_, raw, _) => MethodsOf(raw)
    case _ => []
  }

  /** `getType()` of the typed nodes the rules ask for a type. */
  function TypeOf(j: J): Option<JavaType>
  {
    match j
    case Identifier(_, _, t) => t
    case FieldAccess(_, _, _, t) => t
    case MethodInvocation(_, _, _, t) => t
    case NewClass(_, _, _, _, t) => t
    case ClassDeclaration(t) => t
    case Lambda(l) => l.typ
    case _ => None
  }
}
