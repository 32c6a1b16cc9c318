/**
 * Concrete lambdas from the recipe's own test cases and what the decision
 * does with each.
 */
module LambdaToMethodReferenceScenarios {
  import opened JavaTree
  import opened LambdaToMethodReference
  import opened LambdaToMethodReferenceProperties

  // The owner of a local variable or parameter is a method type, not a class.
  const EnclosingMethodType := OtherType(9)

  // `x -> System.out.println(x)`, with `println` overloaded on PrintStream

  const PrintStreamType := Class(2, "java.io.PrintStream",
    [Method(20, "println", false, false, OtherType(0)), Method(21, "println", false, false, OtherType(0))])
  const Println := Method(21, "println", false, false, PrintStreamType)
  const SystemType := Class(3, "java.lang.System", [])
  const Out := Variable(30, "out", Some(SystemType), true)
  const SystemOut := FieldAccess(Identifier("System", None, Some(SystemType)), "out", Some(Out), Some(PrintStreamType))
  const X := Variable(40, "x", Some(EnclosingMethodType), false)
  const PrintX := MethodInvocation(Some(SystemOut), [Identifier("x", Some(X), None)], Some(Println), None)
  const PrintLambda := LambdaExpr(100, " ", [VariableDeclarations(NamedVariable("x", Some(X)), [])], PrintX, None)

  /** `x -> System.out.println(x)` becomes `System.out::println`, and so does `x -> { System.out.println(x); }`. */
  lemma SystemOutPrintln(ancestors: seq<J>, f: ClassLiteralFactory)
    ensures Decide(PrintLambda, PrintX, ancestors, f) ==
      Rewritten(Replacement(" ", None, BoundRef(SystemOut, Println)), false)
    ensures Decide(PrintLambda, Block([PrintX]), ancestors, f) ==
      Rewritten(Replacement(" ", None, BoundRef(SystemOut, Println)), false)
  {
    PrintlnNeverAmbiguous(Println);
    assert NonEmpty(CallArguments(PrintX)) == CallArguments(PrintX) by {
      NonEmptyKeeps(CallArguments(PrintX));
    }
    assert DeclaredParameters(PrintLambda.parameters) == [NamedVariable("x", Some(X))] by {
      DeclaredParametersAll(PrintLambda.parameters);
    }
    assert ArgumentsMatch(PrintX, PrintLambda);
  }

  // `o -> o.toString()`

  const ObjectType := Class(1, "java.lang.Object", [])
  const StringType := Class(4, "java.lang.String", [])
  const ToString := Method(50, "toString", false, false, ObjectType)
  const O := Variable(51, "o", Some(EnclosingMethodType), false)
  const OToString := MethodInvocation(Some(Identifier("o", Some(O), Some(ObjectType))), [Empty], Some(ToString), Some(StringType))
  const ToStringLambda := LambdaExpr(101, "", [VariableDeclarations(NamedVariable("o", Some(O)), [])], OToString, None)

  /** `o -> o.toString()` becomes the unbound `Object::toString`, not `o::toString`. */
  lemma UnboundToString(ancestors: seq<J>, f: ClassLiteralFactory)
    ensures Decide(ToStringLambda, OToString, ancestors, f) ==
      Rewritten(Replacement("", None, StaticRef(ToString)), true)
  {
  }

  // `() -> run()` inside class Test

  const TestType := Class(60, "Test", [])
  const Run := Method(61, "run", false, false, TestType)
  const RunCall := MethodInvocation(None, [Empty], Some(Run), None)
  const RunLambda := LambdaExpr(102, " ", [Empty], RunCall, None)

  /** `() -> run()` in a field initialiser of class Test becomes `this::run`, `this` typed Test. */
  lemma ImplicitThis(f: ClassLiteralFactory)
    ensures Decide(RunLambda, RunCall, [OtherTree, ClassDeclaration(Some(TestType)), CompilationUnit], f) ==
      Rewritten(Replacement(" ", None, ThisRef(Some(TestType), Run)), false)
  {
    assert NonEmpty(CallArguments(RunCall)) == [];
    DeclaredParametersNone(RunLambda.parameters);
    assert ArgumentsMatch(RunCall, RunLambda);
    var ancestors := [OtherTree, ClassDeclaration(Some(TestType)), CompilationUnit];
    assert !IsThisScope(ancestors[0]) && IsThisScope(ancestors[1]);
    assert DropParentUntil(ancestors, IsThisScope) == Some(1);
  }

  // `name -> new B(name)` where B has two constructors

  const BType := Class(70, "B",
    [Method(71, "<constructor>", false, true, OtherType(0)), Method(72, "<constructor>", false, true, OtherType(0))])
  const BConstructor := Method(72, "<constructor>", false, true, BType)
  const Name := Variable(73, "name", Some(EnclosingMethodType), false)
  const BName := Identifier("B", None, Some(BType))
  const NewB := NewClass(BName, [Identifier("name", Some(Name), None)], false, Some(BConstructor), Some(BType))
  const NewBLambda := LambdaExpr(103, "", [VariableDeclarations(NamedVariable("name", Some(Name)), [])], NewB, None)

  /** The arguments of `new B(name)` pass the lambda's one parameter through, and `B`'s constructors do not clash. */
  lemma NewBAccepted()
    ensures ArgumentsMatch(NewB, NewBLambda)
    ensures !IsAmbiguous(BConstructor)
    ensures HasMultipleConstructors(NewB.typ)
  {
    assert ConstructorCount(BType.methods) == 2;
    assert NonEmpty(CallArguments(NewB)) == CallArguments(NewB) by {
      NonEmptyKeeps(CallArguments(NewB));
    }
    assert DeclaredParameters(NewBLambda.parameters) == [NamedVariable("name", Some(Name))] by {
      DeclaredParametersAll(NewBLambda.parameters);
    }
    ClashCountOne(MethodsOf(BConstructor.declaringType), BConstructor.name);
  }

  /**
   * Passed to an overloaded `method(...)`, `name -> new B(name)` is left as it
   * is, because `B` has two constructors.
   */
  lemma ConstructorPassedToMethodKept(f: ClassLiteralFactory)
    ensures Decide(NewBLambda, NewB,
      [MethodInvocation(None, [Lambda(NewBLambda)], None, None), ClassDeclaration(Some(TestType)), CompilationUnit], f)
      == Unchanged
  {
    NewBAccepted();
    var underCall := [MethodInvocation(None, [Lambda(NewBLambda)], None, None), ClassDeclaration(Some(TestType)), CompilationUnit];
    assert IsInvocationOrUnit(underCall[0]);
    assert IsInvocationArgument(NewBLambda, underCall) == Some(true);
  }

  // `f = i -> new ArrayList(i)` in method `foo` of class A, ArrayList having three constructors

  const AType := Class(95, "A", [])
  const ArrayListType := Class(90, "java.util.ArrayList",
    [Method(91, "<constructor>", false, true, OtherType(0)), Method(92, "<constructor>", false, true, OtherType(0)),
     Method(93, "<constructor>", false, true, OtherType(0))])
  const ArrayListConstructor := Method(92, "<constructor>", false, true, ArrayListType)
  const I := Variable(94, "i", Some(EnclosingMethodType), false)
  const ArrayListName := Identifier("ArrayList", None, Some(ArrayListType))
  const NewArrayList := NewClass(ArrayListName, [Identifier("i", Some(I), None)], false, Some(ArrayListConstructor), Some(ArrayListType))
  const NewArrayListLambda := LambdaExpr(106, " ", [VariableDeclarations(NamedVariable("i", Some(I)), [])], NewArrayList, None)

  /** The argument of `new ArrayList(i)` passes the lambda's one parameter through, and the constructors do not clash. */
  lemma NewArrayListAccepted()
    ensures ArgumentsMatch(NewArrayList, NewArrayListLambda)
    ensures !IsAmbiguous(ArrayListConstructor)
  {
    assert NonEmpty(CallArguments(NewArrayList)) == CallArguments(NewArrayList) by {
      NonEmptyKeeps(CallArguments(NewArrayList));
    }
    assert DeclaredParameters(NewArrayListLambda.parameters) == [NamedVariable("i", Some(I))] by {
      DeclaredParametersAll(NewArrayListLambda.parameters);
    }
    ClashCountOne(MethodsOf(ArrayListConstructor.declaringType), ArrayListConstructor.name);
  }

  /**
   * Assigned to a variable, `i -> new ArrayList(i)` becomes `ArrayList::new`
   * although ArrayList has several constructors: the lambda is no argument of
   * an invocation. The ancestors are the assignment, the method body, the
   * method, class A and the compilation unit.
   */
  lemma ConstructorReference(f: ClassLiteralFactory)
    ensures Decide(NewArrayListLambda, NewArrayList, [OtherTree, Block([]), OtherTree, ClassDeclaration(Some(AType)), CompilationUnit], f) ==
      Rewritten(Replacement(" ", None, ConstructorRef(ArrayListName, ArrayListConstructor)), false)
  {
    NewArrayListAccepted();
    var inAssignment := [OtherTree, Block([]), OtherTree, ClassDeclaration(Some(AType)), CompilationUnit];
    assert forall k :: 0 <= k < 4 ==> !IsInvocationOrUnit(inAssignment[k]);
    assert IsInvocationOrUnit(inAssignment[4]);
    assert DropParentUntil(inAssignment, IsInvocationOrUnit) == Some(4);
    assert IsInvocationArgument(NewArrayListLambda, inAssignment) == Some(false);
  }

  // `s -> path.getFileName().toString().equals(s)`

  const S := Variable(80, "s", Some(EnclosingMethodType), false)
  const Equals := Method(81, "equals", false, false, StringType)
  const ChainedSelect := MethodInvocation(Some(Identifier("path", None, None)), [], None, None)
  const EqualsCall := MethodInvocation(Some(ChainedSelect), [Identifier("s", Some(S), None)], Some(Equals), None)
  const EqualsLambda := LambdaExpr(104, "", [VariableDeclarations(NamedVariable("s", Some(S)), [])], EqualsCall, None)

  /** A selector that is itself a call is never turned into a bound reference. */
  lemma ChainedSelectorKept(ancestors: seq<J>, f: ClassLiteralFactory)
    ensures Decide(EqualsLambda, EqualsCall, ancestors, f) == Unchanged
  {
  }

  // `() -> t.run()` in class Test2, where `t` is a field of Test2 that is not final

  const Test2Type := Class(62, "Test2", [])
  const TField := Variable(63, "t", Some(Test2Type), false)
  const TRunCall := MethodInvocation(Some(Identifier("t", Some(TField), Some(TestType))), [Empty], Some(Run), None)
  const TRunLambda := LambdaExpr(105, " ", [Empty], TRunCall, None)

  /** `() -> t.run()` on a field `t` that is not final is left as it is, in every context. */
  lemma NonFinalFieldSelectorKept(ancestors: seq<J>, f: ClassLiteralFactory)
    ensures Decide(TRunLambda, TRunCall, ancestors, f) == Unchanged
  {
  }
}
