# Lambda-to-method-reference and postfix for-loop rewrites, modelled in Dafny

This project models two rewrite rules from the rewrite-static-analysis recipe collection. Both rules work on the typed Java syntax tree of OpenRewrite.

- **ReplaceLambdaWithMethodReference** visits each lambda and, when that is safe, replaces it with an equivalent method reference:
  - `x -> x instanceof X` becomes `X.class::isInstance`;
  - `x -> (X) x` becomes `X.class::cast`;
  - `x -> x == null` becomes `java.util.Objects::isNull`, and a comparison with `!=` becomes `Objects::nonNull`;
  - `x -> System.out.println(x)` becomes `System.out::println`;
  - `o -> o.toString()` becomes `Object::toString`;
  - `() -> run()` becomes `this::run`;
  - `name -> new B(name)` becomes `B::new`.

  Before it rewrites a call, the rule checks these guards, and a lambda that fails any of them is left as it is:
  - the call's method must resolve;
  - the selector must not be another call;
  - the selector must not be a field that could be reassigned;
  - the arguments must pass the lambda's parameters through in order, comparing the variables by identity;
  - the method's name must not be overloaded (`println` is exempt);
  - a constructor must not be overloaded when the lambda is itself passed to a method.
- **ForLoopControlVariablePostfixOperators** rewrites the update list of every `for` loop: `++i` becomes `i++` and `--i` becomes `i--`. Every other part of the loop is left unchanged.

The files:

- `java_tree.dfy` (module `JavaTree`) holds the parts of the tree the rules read. These are type, method and variable descriptors, and the node kinds the rules test. Each descriptor carries an `id` that stands for its object identity, because the source compares descriptors with `==`.
- `lambda_to_method_reference.dfy` (module `LambdaToMethodReference`) holds the decision. It is specified by the function `Decide` and the functions it calls. The visitor `VisitLambda` and its loop helpers are methods that follow the Java control flow, and each method is proved to compute its specification function.
  - The cursor is modelled as the list of the lambda's ancestors, nearest first.
  - A cursor lookup that finds no matching ancestor raises an `IllegalStateException` in Java. In the model it is the outcome `NoEnclosingScope`.
  - The class-literal factory is a function parameter.
- `lambda_to_method_reference_properties.dfy` (module `LambdaToMethodReferenceProperties`) holds lemmas about `Decide`: when each body shape is rewritten, and which reference each shape becomes.
- `lambda_to_method_reference_scenarios.dfy` (module `LambdaToMethodReferenceScenarios`) holds lambdas taken from the recipe's tests, each with the outcome the model proves for it.
- `for_loop_postfix_operators.dfy` (module `ForLoopPostfixOperators`) holds the for-loop rule. The source of this rule is pure, so the model is functions and lemmas only.

Three behaviours of the code are modelled as written, even though a reader might expect otherwise:

- The null-comparison condition follows Java's grouping. `&&` binds tighter than `||`, so the test for `==` or `!=` applies only when the identifier is on the left. As a result `null <op> x` is rewritten for every operator `op`. The lemma `NullOnTheLeftAnyOperator` states this consequence, and `NullComparisonShape` states the whole condition.
- The operand of an `instanceof` or of a null comparison must be an identifier, but it is never checked to be the lambda's parameter. So `n -> other == null` becomes `Objects::isNull` (`NullCheckOperandNotTiedToParameter`), and `n -> other instanceof X` becomes `X.class::isInstance` (`InstanceOfOperandNotTiedToParameter`).
- An invocation on a field that a class owns and that is not final is never rewritten (`ReplaceLambdaWithMethodReference.java:209-218`). The test at `ReplaceLambdaWithMethodReferenceTest.java:271-274` nonetheless expects `() -> t.run()`, with `t` such a field of `Test2`, to become `t::run` (line 287). The test's expectation and the guard disagree. The model follows the guard and keeps that lambda unchanged (`NonFinalFieldSelectorKept`).

## Model

| member | source | states |
|---|---|---|
| LambdaToMethodReference.VisitLambda | src/main/java/org/openrewrite/staticanalysis/ReplaceLambdaWithMethodReference.java:75-202 | The visitor, with its early returns, computes exactly the outcome of the decision `Decide` for the original lambda, its visited body and its ancestors. |
| LambdaToMethodReference.VisitInstanceOf | src/main/java/org/openrewrite/staticanalysis/ReplaceLambdaWithMethodReference.java:89-105 | The `instanceof` branch computes exactly `InstanceOfOutcome`, whose meaning `InstanceOfShape` states. |
| LambdaToMethodReference.VisitCast | src/main/java/org/openrewrite/staticanalysis/ReplaceLambdaWithMethodReference.java:106-127 | The cast branch computes exactly `CastOutcome`, whose meaning `CastShape` states. |
| LambdaToMethodReference.VisitCall | src/main/java/org/openrewrite/staticanalysis/ReplaceLambdaWithMethodReference.java:144-199 | The method-call branch, with its early returns, computes exactly `CallOutcome`, whose meaning `CallRewrittenIff`, `CallRejections` and `BuilderChoice` state. |
| LambdaToMethodReference.GetMethodArguments | src/main/java/org/openrewrite/staticanalysis/ReplaceLambdaWithMethodReference.java:253-277 | The collected list is the call's arguments without the `J.Empty` placeholders, in order. |
| LambdaToMethodReference.GetLambdaParameters | src/main/java/org/openrewrite/staticanalysis/ReplaceLambdaWithMethodReference.java:279-288 | The collected list is the first variable of every parameter that is a variable declaration, in order. |
| LambdaToMethodReference.MethodArgumentsMatchLambdaParameters | src/main/java/org/openrewrite/staticanalysis/ReplaceLambdaWithMethodReference.java:223-251 | The loop with early returns answers `true` exactly when the argument-correspondence predicate `ArgumentsMatch` holds. |
| LambdaToMethodReference.IsMethodReferenceAmbiguous | src/main/java/org/openrewrite/staticanalysis/ReplaceLambdaWithMethodReference.java:308-318 | The counting loop, which stops at the second clash, answers `true` exactly when more than one sibling clashes with the method's name. |
| LambdaToMethodReference.ClashCountOfPrefix | src/main/java/org/openrewrite/staticanalysis/ReplaceLambdaWithMethodReference.java:308-318 | The clash count of a prefix of the sibling list never exceeds the count of the whole list, so an early `true` is final. |
| LambdaToMethodReference.FirstNamedIndex | src/main/java/org/openrewrite/staticanalysis/ReplaceLambdaWithMethodReference.java:97 | The result is the position of the first method with the given name, or absent when no method has that name. |
| LambdaToMethodReference.DropParentUntil | src/main/java/org/openrewrite/staticanalysis/ReplaceLambdaWithMethodReference.java:189-191 | The result is the nearest ancestor that satisfies the predicate, and no nearer ancestor satisfies it. It is absent exactly when no ancestor satisfies it. |
| LambdaToMethodReference.NonEmpty | src/main/java/org/openrewrite/staticanalysis/ReplaceLambdaWithMethodReference.java:257-261 | Dropping the empty arguments never lengthens the list. |
| LambdaToMethodReference.DeclaredParameters | src/main/java/org/openrewrite/staticanalysis/ReplaceLambdaWithMethodReference.java:281-286 | There are never more declared parameters than parameter trees. |
| LambdaToMethodReferenceProperties.NonEmptyMembers | src/main/java/org/openrewrite/staticanalysis/ReplaceLambdaWithMethodReference.java:257-261 | A tree is among the collected arguments exactly when it is an argument and is not `J.Empty`. |
| LambdaToMethodReferenceProperties.NonEmptyKeeps | src/main/java/org/openrewrite/staticanalysis/ReplaceLambdaWithMethodReference.java:257-261 | An argument list with no `J.Empty` is collected whole and in order. |
| LambdaToMethodReferenceProperties.DeclaredParametersAll | src/main/java/org/openrewrite/staticanalysis/ReplaceLambdaWithMethodReference.java:281-286 | When every parameter is a declaration, the collected list has one variable per parameter, position by position. |
| LambdaToMethodReferenceProperties.DeclaredParametersNone | src/main/java/org/openrewrite/staticanalysis/ReplaceLambdaWithMethodReference.java:281-286 | A parameter list such as `()`, which holds no declaration, declares no parameter. |
| LambdaToMethodReferenceProperties.ArgumentsMatchPositional | src/main/java/org/openrewrite/staticanalysis/ReplaceLambdaWithMethodReference.java:223-251 | For a static call, or one whose selector is not the first parameter, the arguments match exactly when two lists have the same length: the collected arguments (without `J.Empty` placeholders) and the collected parameters. Each argument must also be an identifier of the same variable object as the parameter at its position. Zero-argument calls and `()` lambdas are included. |
| LambdaToMethodReferenceProperties.SelectTakesFirstParameter | src/main/java/org/openrewrite/staticanalysis/ReplaceLambdaWithMethodReference.java:234-236 | For a non-static `p.m(...)` whose selector is the first parameter, the selector takes the place of the first collected parameter, the first parameter tree's variable. The arguments match exactly when there is one collected parameter more than collected arguments, and argument `j` is the variable of parameter `j + 1`. |
| LambdaToMethodReferenceProperties.CorrespondsCons | src/main/java/org/openrewrite/staticanalysis/ReplaceLambdaWithMethodReference.java:240-249 | Matching a list headed by `x` means matching `x` with the first parameter and the rest of the list with the remaining parameters. |
| LambdaToMethodReferenceProperties.CorrespondsDeclared | src/main/java/org/openrewrite/staticanalysis/ReplaceLambdaWithMethodReference.java:240-249 | When every parameter is a declaration, matching the declared parameters means the same lengths and, position by position, an identifier of the same variable object as the parameter tree's first variable. |
| LambdaToMethodReferenceProperties.DeclaredParametersHead | src/main/java/org/openrewrite/staticanalysis/ReplaceLambdaWithMethodReference.java:281-286 | A parameter list that starts with a declaration collects that declaration's first variable first. |
| LambdaToMethodReferenceProperties.ArgumentOrderFidelity | src/main/java/org/openrewrite/staticanalysis/ReplaceLambdaWithMethodReference.java:240-249 | `(a, b) -> t.m(b, a)` never passes the correspondence check. `(a, b) -> t.m(a, b)` always passes it when `m` is static or the selector is not the first parameter. |
| LambdaToMethodReferenceProperties.AmbiguousIffTwoSiblings | src/main/java/org/openrewrite/staticanalysis/ReplaceLambdaWithMethodReference.java:308-318 | A method is ambiguous exactly when two distinct siblings in its declaring type have its name, neither is named `println` and neither is a constructor. |
| LambdaToMethodReferenceProperties.ClashCountTwo | src/main/java/org/openrewrite/staticanalysis/ReplaceLambdaWithMethodReference.java:310-316 | The clash count exceeds one exactly when two distinct positions of the list clash. |
| LambdaToMethodReferenceProperties.ClashCountOne | src/main/java/org/openrewrite/staticanalysis/ReplaceLambdaWithMethodReference.java:310-316 | The clash count is positive exactly when some position of the list clashes. |
| LambdaToMethodReferenceProperties.PrintlnNeverAmbiguous | src/main/java/org/openrewrite/staticanalysis/ReplaceLambdaWithMethodReference.java:311 | A method named `println` is never ambiguous, however many overloads it has. |
| LambdaToMethodReferenceProperties.MultiStatementBlockUnchanged | src/main/java/org/openrewrite/staticanalysis/ReplaceLambdaWithMethodReference.java:79-87 | A block body with zero statements, or with two or more, is never rewritten. |
| LambdaToMethodReferenceProperties.SingleStatementUnwrapped | src/main/java/org/openrewrite/staticanalysis/ReplaceLambdaWithMethodReference.java:79-87 | A one-statement block is decided as its statement, `return e;` as `e`, and `return;` leaves the lambda unchanged. |
| LambdaToMethodReferenceProperties.InstanceOfShape | src/main/java/org/openrewrite/staticanalysis/ReplaceLambdaWithMethodReference.java:89-105 | An `instanceof` body is rewritten exactly when all of these hold: the operand is an identifier, the type is an identifier or a field access, the class literal builds, and its class has an `isInstance` method. The result is a reference to that literal's `isInstance` method at the first position with that name, with import shortening scheduled. It never raises. |
| LambdaToMethodReferenceProperties.CastShape | src/main/java/org/openrewrite/staticanalysis/ReplaceLambdaWithMethodReference.java:106-128 | A cast body is rewritten exactly when all of these hold: the lambda has a single declared parameter, the cast operand is an identifier with that parameter's name, the type is an identifier or field access but not a type variable, the class literal builds, and its class has a `cast` method. The result is that literal's `cast` method at the first position with that name, with import shortening scheduled. |
| LambdaToMethodReferenceProperties.NullComparisonShape | src/main/java/org/openrewrite/staticanalysis/ReplaceLambdaWithMethodReference.java:131-143 | A binary body is rewritten exactly when it is `ident == null` or `ident != null`, or `null <op> ident` for any operator. The result is `Objects::isNull` for `==` and `Objects::nonNull` otherwise, with import shortening scheduled. |
| LambdaToMethodReferenceProperties.NullOnTheLeftAnyOperator | src/main/java/org/openrewrite/staticanalysis/ReplaceLambdaWithMethodReference.java:132-136 | `null <op> x` for any operator other than `==`, for example `null + x`, becomes `Objects::nonNull`. |
| LambdaToMethodReferenceProperties.IdentifierOnTheLeftNeedsEquality | src/main/java/org/openrewrite/staticanalysis/ReplaceLambdaWithMethodReference.java:132-134 | `x <op> null` with an operator other than `==` or `!=` is left unchanged. |
| LambdaToMethodReferenceProperties.NullCheckOperandNotTiedToParameter | src/main/java/org/openrewrite/staticanalysis/ReplaceLambdaWithMethodReference.java:303-306 | A null check only asks for an identifier beside the `null` literal. For every lambda, `other == null` becomes `Objects::isNull`, whether or not `other` is one of the lambda's parameters. |
| LambdaToMethodReferenceProperties.InstanceOfOperandNotTiedToParameter | src/main/java/org/openrewrite/staticanalysis/ReplaceLambdaWithMethodReference.java:89-92 | For every lambda, `other instanceof X` is rewritten once the class literal builds with an `isInstance` method, whether or not `other` is one of the lambda's parameters. |
| LambdaToMethodReferenceProperties.CallRejections | src/main/java/org/openrewrite/staticanalysis/ReplaceLambdaWithMethodReference.java:144-169 | Each of these call shapes is never rewritten: an anonymous class, a method reference, an unresolved method, a selector that is a call, a selector that is a reassignable field, arguments that do not match the parameters, and an ambiguous name. |
| LambdaToMethodReferenceProperties.InvocationArgumentIff | src/main/java/org/openrewrite/staticanalysis/ReplaceLambdaWithMethodReference.java:321-328 | The lambda counts as an argument exactly when the nearest ancestor that is an invocation or a compilation unit is an invocation holding that very lambda among its arguments. The lookup raises exactly when no ancestor is an invocation or a compilation unit. |
| LambdaToMethodReferenceProperties.ConstructorAmbiguityRejected | src/main/java/org/openrewrite/staticanalysis/ReplaceLambdaWithMethodReference.java:149-155 | A constructor call of a class with several constructors stays a lambda when the lambda, as the same object, is an argument of the nearest enclosing invocation. This holds whether the call is the body, the single statement of a block or the returned expression. |
| LambdaToMethodReferenceProperties.CallRewrittenIff | src/main/java/org/openrewrite/staticanalysis/ReplaceLambdaWithMethodReference.java:144-197 | A call is rewritten exactly when it passes every guard. It must be an invocation or a constructor call without a class body and must pass the constructor-ambiguity guard. Its method must resolve and not be ambiguous. Its selector must be neither a call nor a reassignable field, and its arguments must match the parameters. A static-style reference must have no type-variable argument, and an invocation without a selector needs an enclosing scope for `this`. |
| LambdaToMethodReferenceProperties.InOrderCallRewritten | src/main/java/org/openrewrite/staticanalysis/ReplaceLambdaWithMethodReference.java:161-187 | `(a, b) -> target.m(a, b)` becomes `Owner::m` for a static `m` and `target::m` otherwise, whenever `target` is neither a call nor a reassignable field, `m` is not ambiguous, a non-static `m` is not called on the first parameter, and a static call's type has no type-variable argument. |
| LambdaToMethodReferenceProperties.CallSelectorKept | src/main/java/org/openrewrite/staticanalysis/ReplaceLambdaWithMethodReference.java:204-207 | An invocation whose selector is itself a call is never rewritten. |
| LambdaToMethodReferenceProperties.ReassignableSelectorKept | src/main/java/org/openrewrite/staticanalysis/ReplaceLambdaWithMethodReference.java:209-221 | An invocation is never rewritten when its selector names, directly or through a field access, a field that a class owns and that is not final. |
| LambdaToMethodReferenceProperties.SelectMatchIsByIdentity | src/main/java/org/openrewrite/staticanalysis/ReplaceLambdaWithMethodReference.java:290-301 | An identifier selector stands for the lambda's declared first parameter exactly when its variable descriptor is the same object as that parameter's. Simple names play no part. |
| LambdaToMethodReferenceProperties.SelectMatchNeedsDeclaredParameter | src/main/java/org/openrewrite/staticanalysis/ReplaceLambdaWithMethodReference.java:290-296 | A selector never stands for the first parameter when the lambda has no parameter or its first parameter is not a declaration. |
| LambdaToMethodReferenceProperties.RaisesOnlyWithoutScope | src/main/java/org/openrewrite/staticanalysis/ReplaceLambdaWithMethodReference.java:144-197 | The visit raises only for a call, in two cases. One is a constructor call with neither an invocation nor a compilation unit above the lambda. The other is an invocation without a selector with no class, anonymous class body or lambda above it. |
| LambdaToMethodReferenceProperties.BuilderChoice | src/main/java/org/openrewrite/staticanalysis/ReplaceLambdaWithMethodReference.java:168-197 | The reference built for an accepted call names the call's method. It has the form `Owner::m` exactly for a static method or a selector that is the first parameter, and then the call's type has no type-variable argument. Otherwise it is `Type::new` (with the raw class) exactly for a constructor, `select::m` exactly for an invocation with a selector, and `this::m` exactly for one without. `this` takes the type of the nearest class, anonymous class body or lambda. |
| LambdaToMethodReferenceProperties.ReplacementKeepsPrefixAndType | src/main/java/org/openrewrite/staticanalysis/ReplaceLambdaWithMethodReference.java:99-196 | Every replacement keeps the lambda's prefix and type. Import shortening is scheduled exactly for class-literal, `Objects` and `Owner::m` references. |
| LambdaToMethodReferenceScenarios.SystemOutPrintln | src/test/java/org/openrewrite/staticanalysis/ReplaceLambdaWithMethodReferenceTest.java:328-380 | `x -> System.out.println(x)` and `x -> { System.out.println(x); }` both become `System.out::println`, with `println` overloaded and `out` final. |
| LambdaToMethodReferenceScenarios.UnboundToString | src/test/java/org/openrewrite/staticanalysis/ReplaceLambdaWithMethodReferenceTest.java:437-468 | `o -> o.toString()` becomes the unbound `Object::toString`. |
| LambdaToMethodReferenceScenarios.ImplicitThis | src/test/java/org/openrewrite/staticanalysis/ReplaceLambdaWithMethodReferenceTest.java:264-269 | `() -> run()` in a field initialiser of class `Test` becomes `this::run`, with `this` typed `Test`. |
| LambdaToMethodReferenceScenarios.ConstructorPassedToMethodKept | src/test/java/org/openrewrite/staticanalysis/ReplaceLambdaWithMethodReferenceTest.java:873-903 | `name -> new B(name)`, where `B` has two constructors, stays a lambda when it is passed to the overloaded `method`. |
| LambdaToMethodReferenceScenarios.ConstructorReference | src/test/java/org/openrewrite/staticanalysis/ReplaceLambdaWithMethodReferenceTest.java:775-797 | `f = i -> new ArrayList(i)` becomes `ArrayList::new` although `ArrayList` has several constructors, because the lambda is not an argument of an invocation. |
| LambdaToMethodReferenceScenarios.NonFinalFieldSelectorKept | src/test/java/org/openrewrite/staticanalysis/ReplaceLambdaWithMethodReferenceTest.java:271-274 | `() -> t.run()`, with `t` a field of `Test2` that is not final, is left unchanged in every context. The test's expected `t::run` (line 287) is not what the code does. |
| LambdaToMethodReferenceScenarios.ChainedSelectorKept | src/test/java/org/openrewrite/staticanalysis/ReplaceLambdaWithMethodReferenceTest.java:59-80 | `s -> path.getFileName().toString().equals(s)` is left unchanged in every context. |
| ForLoopPostfixOperators.Postfixed | src/main/java/org/openrewrite/staticanalysis/ForLoopControlVariablePostfixOperators.java:47-55 | The result is never a prefix step. A prefix step keeps its operand and gets the matching postfix operator, and any other update is returned unchanged. |
| ForLoopPostfixOperators.MapUpdates | src/main/java/org/openrewrite/staticanalysis/ForLoopControlVariablePostfixOperators.java:46-56 | The mapped list has the same length as the update list, and each element is the rewrite of the update at the same position. |
| ForLoopPostfixOperators.VisitForLoop | src/main/java/org/openrewrite/staticanalysis/ForLoopControlVariablePostfixOperators.java:43-61 | The initialisers, condition and body are unchanged. Only the updates are rewritten, each at its own position. |
| ForLoopPostfixOperators.NoPrefixStepRemains | src/main/java/org/openrewrite/staticanalysis/ForLoopControlVariablePostfixOperators.java:43-61 | After the visit, no update is `++i` or `--i`. |
| ForLoopPostfixOperators.UnchangedIffNoPrefixStep | src/main/java/org/openrewrite/staticanalysis/ForLoopControlVariablePostfixOperators.java:43-61 | A loop is left unchanged exactly when none of its updates is a prefix increment or decrement. |
| ForLoopPostfixOperators.Idempotent | src/main/java/org/openrewrite/staticanalysis/ForLoopControlVariablePostfixOperators.java:43-61 | Applying the rewrite twice gives the same loop as applying it once. |

## Left out

- Recipe metadata (display names, descriptions, tags, remediation time) is left out. It is text, not behaviour.
- The language dispatch in `getVisitor` is left out, and so is the Kotlin visitor, which has no methods.
- The generic tree traversal is modelled only through its result. `super.visitLambda` supplies the visited body as the parameter `visitedBody`, and `updateCursor` becomes the rebuilt lambda `l`. `super.visitForLoop` is not modelled, so loops nested inside a loop's body are not visited.
- The node builders `JavaElementFactory` and `JavaTemplate`, and the import-shortening service, are code outside this model:
  - the class-literal factory is a function parameter;
  - the built references and the template result are abstract `Reference` values;
  - the scheduled import-shortening pass is a boolean.
- Type attribution is taken as given: descriptors are inputs, not computed.
- Whitespace is modelled only as the lambda's prefix. Resetting the prefix of the class name in `Type::new` is not modelled.
- VisitLambda: the `Objects::isNull` and `::nonNull` template result is taken to keep the lambda's prefix and type.
- The rewrite is not proved to preserve the program's meaning. The model states the guards the rule checks, not the run-time semantics of method references.
- The class name of a `new` expression is never null in the model; the source assumes the same.
- The class literal's methods are taken to be those of its raw class. The cast of the literal's type to a parameterized type, which could throw at `ReplaceLambdaWithMethodReference.java:96` and `:117`, is not modelled.
- `InstanceOfPatternMatchTest.java` belongs to another recipe, which is not part of this model.
