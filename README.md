# Hegel's call normaliser, modelled in Dafny

Hegel is a type checker for JavaScript. While it builds its type graph, it
turns every expression and statement of a function body into calls of
ordinary bindings. The routine that does this is `addCallToTypeGraph`.
Control flow becomes calls of `if`, `while`, `do-while` and `for`.
Operators become calls of their token (`+`, `=`, `.`, `?:`, `new`, `throw`,
`return`). Calls stay calls. Each such call:

- resolves its target in the scope tree;
- is checked for being callable;
- is given a result type by the unifier;
- is pushed as a call record on the ledger of the nearest function-kind
  scope (or, outside any function, of the scope the outer search yields).

`throw` and calls of a target that can throw also add to the current
scope's throwable accumulator.

The project has two layers:

- **Specification.** `Call.Normalize` is a pure function. For a node, the
  scope tree, the collaborators and the current scope, it gives the
  normaliser's result or error, together with the ordered trace of effects
  it performs. An effect is a record pushed on a ledger or a value added to
  a throwable accumulator. When the normaliser raises, the trace holds the
  effects that already happened.
- **Implementation.** `Graph.TypeGraph` is the mutable form. Scopes live
  in an arena. `calls` and `throwables` hold one list per scope.
  `AddCallToTypeGraph` and its per-node helpers change those lists in
  place. Each method is proved to return what `Normalize` returns. It also
  leaves every scope's lists extended by exactly that scope's part of the
  trace, in trace order (`Scopes.Apply`).

The collaborators are parameters, as fields of `Call.Env`:

- `findVariableInfo` (`lookup`);
- `getAnonymousKey` (`anonymousKey`);
- `findNearestTypeScope` (`typeScope`, None when it does not find a `Scope`);
- `inferenceTypeForNode` (`infer`);
- `getInvocationType` (`unify`, which may fail);
- `findNearestScopeByType`, only for the case where no function-kind scope
  encloses the current one: its answer is the scope tree's `fallback`.

Module layout:

| file | module | contents |
|---|---|---|
| `wrappers.dfy` | `Wrappers` | `Option` and `Result` |
| `types.dfy` | `Types` | types, bindings, call records |
| `scopes.dfy` | `Scopes` | the scope tree, effects, and the ledgers a trace produces |
| `ast.dfy` | `Ast` | the syntax-tree nodes the normaliser reads |
| `call.dfy` | `Call` | the specification |
| `graph.dfy` | `Graph` | the mutable type graph |
| `properties.dfy` | `CallProperties` | the properties proved about the specification |

In the prose below, `call.js` is `packages/core/src/type-graph/call.js`.

On these points the model follows the code:

- **Target name.** `if`, `while`, `do-while` and `for` are resolved under
  their keyword. Their call record's target name, however, stays `""`, the
  initial value (call.js:29, 37-66). Call expressions keep `""` too.
- **Expression statements.** They are forwarded to their expression
  (call.js:96-97).
- **Order of resolution.** `if`, `while`, `do-while` and `for` resolve
  their target before normalising their test. Every other node resolves it
  after its operands. So when both fail, the error differs.
- **`new` with a non-callable callee.** When the callee's type is not
  callable but is an object type, that type is passed on as is. It is not
  replaced by `{ }` (call.js:201-206).
- **The constructor call in `new`.** The unifier gets the constructor
  arguments as they are, with no generic arguments and no location. This
  call leaves no record (call.js:195-200).

## Model

| member | source | states |
|---|---|---|
| Scopes.NearestFunctionScope | packages/core/src/type-graph/call.js:216-219 | The nearest function-kind scope: the current scope when that is function-kind, otherwise an ancestor that is function-kind and no farther than any other such ancestor; none when no ancestor-or-self is function-kind. |
| Scopes.LedgerScopeIsNearestFunctionScope | packages/core/src/type-graph/call.js:216-219 | The ledger scope is the current scope when that is function-kind, the nearest function-kind ancestor whenever one exists, and only otherwise the fallback the outer search yields. |
| Types.TypeArgs | packages/core/src/type-graph/call.js:228-231 | What the unifier receives, in order: an argument that is a type is passed as is, a binding is replaced by its type. |
| Types.TypeArgsNormalForm | packages/core/src/type-graph/call.js:228-231 | What the unifier receives holds only types, so converting it a second time changes nothing. |
| Call.Finish | packages/core/src/type-graph/call.js:216-237 | The common tail succeeds exactly when the target is a binding of callable type, the unifier succeeds and a ledger scope exists; it then returns the unifier's type and appends exactly one record (target, arguments, location, target name) to that scope. A target that is not callable fails as not callable, before the unifier runs; a unifier failure is passed on; a successful unification with no ledger scope fails with `NoLedgerScope`; a failure appends nothing. |
| Scopes.ApplyFrame | packages/core/src/type-graph/call.js:234 | Carrying out a trace leaves every scope it does not name with its ledger and throwables unchanged. |
| Scopes.ApplyConcat | packages/core/src/type-graph/call.js:23-238 | Carrying out two traces in turn is carrying out their concatenation; the recursion composes effects this way. |
| Graph.TypeGraph.Push | packages/core/src/type-graph/call.js:234 | Pushing a record extends only that scope's ledger, by that record. |
| Graph.TypeGraph.AddToThrowable | packages/core/src/type-graph/call.js:105 | Adding a throwable extends only that scope's accumulator, by that value. |
| Graph.TypeGraph.Complete | packages/core/src/type-graph/call.js:216-237 | The imperative tail returns what `Finish` returns and changes the ledgers as its trace says. |
| Graph.TypeGraph.AddCallToTypeGraph | packages/core/src/type-graph/call.js:23-238 | The normaliser returns what `Normalize` returns, and every ledger and throwable list gains exactly its part of `Normalize`'s trace. |
| Graph.TypeGraph.AddAll | packages/core/src/type-graph/call.js:169-171 | Argument lists: the result and the ledger changes of `NormalizeAll`. |
| Graph.TypeGraph.AddTestCall | packages/core/src/type-graph/call.js:37-51 | `if`/`while`/`do-while`, in place, as `Normalize` specifies. |
| Graph.TypeGraph.AddForCall | packages/core/src/type-graph/call.js:52-66 | `for`, in place, as `Normalize` specifies. |
| Graph.TypeGraph.AddDeclarator | packages/core/src/type-graph/call.js:80-95 | Declarators, in place, as `Normalize` specifies. |
| Graph.TypeGraph.AddThrowCall | packages/core/src/type-graph/call.js:98-106 | `throw`, in place, as `Normalize` specifies. |
| Graph.TypeGraph.AddOperandCall | packages/core/src/type-graph/call.js:107-116 | `return`, unary and update, in place, as `Normalize` specifies. |
| Graph.TypeGraph.AddInfixCall | packages/core/src/type-graph/call.js:117-139 | Binary, logical and assignment, in place, as `Normalize` specifies. |
| Graph.TypeGraph.AddMemberCall | packages/core/src/type-graph/call.js:140-155 | Member access, in place, as `Normalize` specifies. |
| Graph.TypeGraph.AddConditionalCall | packages/core/src/type-graph/call.js:156-167 | Conditionals, in place, as `Normalize` specifies. |
| Graph.TypeGraph.AddCallee | packages/core/src/type-graph/call.js:172-181 | The callee of a call, in place, as `NormalizeCallee` specifies. |
| Graph.TypeGraph.AddCallExpression | packages/core/src/type-graph/call.js:168-186 | Call expressions, in place, as `Normalize` specifies. |
| Graph.TypeGraph.AddConstructed | packages/core/src/type-graph/call.js:188-201 | The constructor step of `new`, in place, as `Constructed` specifies. |
| Graph.TypeGraph.AddNewCall | packages/core/src/type-graph/call.js:187-212 | `new`, in place, as `Normalize` specifies. |
| CallProperties.EffectsLandInScopes | packages/core/src/type-graph/call.js:216-234 | For every node, every record goes to the ledger of a function-kind scope or, when none encloses the current one, of the fallback scope; every effect names an existing scope. |
| CallProperties.EffectsLandInScopesAll | packages/core/src/type-graph/call.js:169-171 | The same for a list of arguments: each record goes to a function-kind scope or, when none encloses the current one, the fallback scope. |
| CallProperties.ArgumentsInSourceOrder | packages/core/src/type-graph/call.js:169-171 | A list of arguments succeeds exactly when each element does. Its values are then the elements' values, in source order. |
| CallProperties.NotAScopeFailsFirst | packages/core/src/type-graph/call.js:32-35 | When the nearest type scope is not a `Scope`, every node fails with no effect at all. |
| CallProperties.ReferenceReturnsLookup | packages/core/src/type-graph/call.js:67-79 | Identifiers, function and arrow expressions and classes return the looked-up binding, or fail as unresolved. They record nothing. |
| CallProperties.ExpressionStatementForwards | packages/core/src/type-graph/call.js:96-97 | An expression statement has its expression's value and effects. |
| CallProperties.OtherNodesAreInferred | packages/core/src/type-graph/call.js:213-214 | Every other node kind gets the leaf inferencer's type and has no effect. |
| CallProperties.CallShapedNodeRecordsLast | packages/core/src/type-graph/call.js:216-235 | Post-order: a successful call-shaped node's last effect is its own single record. The record is in the ledger scope (the nearest function-kind scope when there is one), with a callable target, the node's location and its target name. The node's value is the unifier's result for that record (generic arguments only for member access). |
| CallProperties.DeclaratorWithoutInit | packages/core/src/type-graph/call.js:80-85 | A declarator without an initialiser returns its binding and records nothing. |
| CallProperties.DeclaratorWithInit | packages/core/src/type-graph/call.js:86-95 | A declarator with an initialiser adds the initialiser's effects, then one `=` record whose arguments are the binding and the initialiser's value. |
| CallProperties.TestStatementHasOneArgument | packages/core/src/type-graph/call.js:37-51 | `if`/`while`/`do-while` record one argument, the test's value, under target name `""`, after the test's effects. |
| CallProperties.ForHasThreeArguments | packages/core/src/type-graph/call.js:52-66 | `for` always records three arguments: `mixed`; then the test's value, normalised in the body's registered scope, or `undefined` when there is no test; then `mixed`. |
| CallProperties.ThrowAddsToThrowables | packages/core/src/type-graph/call.js:98-106 | `throw` adds the thrown value to the current scope's throwables, right before its own `throw` record. |
| CallProperties.OperandHasOneArgument | packages/core/src/type-graph/call.js:107-116 | `return`, unary and update record one argument under their operator, or under `return` when there is none. |
| CallProperties.InfixIsOneCallOfItsOperator | packages/core/src/type-graph/call.js:117-139 | `a OP b` adds the left operand's effects, then the right's, then one `OP` record of the two values. |
| CallProperties.ConditionalHasThreeArguments | packages/core/src/type-graph/call.js:156-167 | `c ? a : b` adds the three operands' effects, in order, then one `?:` record of the three values. |
| CallProperties.MemberGenericArgumentsAreItsArguments | packages/core/src/type-graph/call.js:140-155 | Member access records the object's value and the key. A non-computed identifier key is a `string` literal named after the key and has no effects. The generic arguments given to the unifier are the arguments themselves. |
| CallProperties.CallExpressionOrder | packages/core/src/type-graph/call.js:168-186 | A call adds the arguments' effects, then the callee's, then the target's throwable to the current scope only when there is one, then the call's record with target name `""`. |
| CallProperties.CallOnBareTypeFails | packages/core/src/type-graph/call.js:220-237 | A callee that normalises to a bare type, not a binding, makes the call fail as not callable, after the arguments' and callee's effects, wherever the call stands. |
| CallProperties.NewPassesOneObject | packages/core/src/type-graph/call.js:187-212 | `new` records exactly one argument, an object type: the constructed type when it is an object type, else `{ }`. Constructor arguments are normalised only for a callable callee. |
| CallProperties.IfBoundToNonFunctionFails | packages/core/src/type-graph/call.js:220-237 | When `if` is bound to a non-callable type, `if (...)` fails with that type as the error and adds no record of its own, inside a function or not. |
| CallProperties.UnresolvedTargetFails | packages/core/src/type-graph/call.js:36-186 | A call-shaped node other than `new` whose target name does not resolve fails as unresolved. `if`, `while`, `do-while` and `for` resolve first, so they fail with no effect at all. Every other kind first normalises its operands in order: an operand failure is the node's failure with the effects so far; otherwise the node fails as unresolved after all its operands' effects, with no record of its own. |
| CallProperties.NewConstructorFailurePassesOn | packages/core/src/type-graph/call.js:187-211 | For `new` with a callable callee and normalised constructor arguments, a constructor unification failure is the node's failure, after the callee's and the arguments' effects and with no `new` record; so is an unresolved `new`. |
| CallProperties.LetXEqualsOnePlusTwo | packages/core/src/type-graph/call.js:86-95 | `let x = 1 + 2` in a function scope returns the `=` result. It records `+` of the two literals, then `=` of x's binding and the sum. |

## Left out

- `addPosition` (call.js:77, 82, 174) records source positions for editor tooling. It does not affect the result or the ledgers and is not part of this model.
- The collaborators' internals are not part of this model: scope lookup, anonymous keys, the nearest type scope, the leaf inferencer and the unifier. They are parameters, so the properties hold for any results they give. They are modelled as total functions without effects, though: a lookup or leaf inference that throws, or that itself records calls or throwables, is not covered. The lookup's failure is modelled as an `Unresolved` error. `Scope.getName(node.body)` appears as the key carried by the `for` node.
- `findNearestScopeByType` is not part of this model. The model walks the scope tree's parent links to the nearest function-kind scope. When there is none, it uses the tree's `fallback` scope, a parameter standing for whatever that search yields outside any function; when `fallback` is None, the call fails with `NoLedgerScope` after the callable check and the unifier. Which scope module-level code records in is therefore not fixed by the model.
- `addToThrowable` (imported at call.js:12) is not part of this model. The model assumes it appends the value, unconditionally and keeping duplicates, to the throwable list of the scope it is given (the current scope, call.js:105 and 184). Whether the real helper forwards to another scope or drops duplicates is not modelled.
- `typeGraph.body.get(...)` may return nothing for a `for` body. The model fails with `NoBodyScope`; the code would pass an undefined scope on.
- `Type.createTypeWithName` interns named types in a type scope. The model builds the `mixed`, `undefined`, `string` and `{ }` types as values, so type identity (interning) is not modelled.
- Types.Binding: a binding is a value (name, type, throwable), so the identity and aliasing of the scope's `VariableInfo` object are not modelled. The code hands back the scope's own object (call.js:79) and shares it with the declarator's record and the ledger record (call.js:87, 225), so a later narrowing of that object is seen through all of them; in the model a record holds a copy, two bindings with equal fields cannot be told apart, and `ReferenceReturnsLookup` states equal values, not the same instance.
- Error message texts are not modelled, only which error is raised.
- A `return;` with no argument is not modelled: every `Operand` node has an argument.
- When the callee normalises to a bare type, the code reads `.type` and `.throwable` of a type object and fails. The model gives `NotCallable(None)`; it does not model which exception JavaScript would raise.
- Integer widths, concurrency and I/O do not arise in this routine.
