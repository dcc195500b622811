/**
  addCallToTypeGraph as a specification: for a node, the type graph's scope
  tree, the collaborators and the current scope, the value the normaliser
  returns (or the error it raises) together with the ordered trace of side
  effects it performs on the way: call records pushed on ledgers and values
  added to throwable accumulators. When the normaliser raises, the trace holds
  the effects that had already happened.
*/
module Call {
  import opened Wrappers
  import opened Types
  import opened Scopes
  import opened Ast

  /**
    The collaborators the normaliser consults but does not define:
    - lookup:       findVariableInfo, by name and location, in a scope;
    - anonymousKey: getAnonymousKey, the name an unnamed function or class is bound under;
    - typeScope:    findNearestTypeScope; None when what it finds is not a Scope;
    - infer:        inferenceTypeForNode, the leaf inferencer;
    - unify:        getInvocationType (callee type, argument list, generic
                    arguments, location), which may fail with a message.
  */
  datatype Env = Env(
    lookup: (string, Loc, ScopeId) -> Option<Binding>,
    anonymousKey: Node -> string,
    typeScope: ScopeId -> Option<TypeScopeId>,
    infer: (Node, TypeScopeId, ScopeId) -> Type,
    unify: (Type, seq<Arg>, Option<seq<Arg>>, Option<Loc>) -> Result<Type, string>)

  datatype Error =
    | NotAScope                              // the nearest type scope is not a Scope
    | Unresolved(name: string, loc: Loc)     // no binding is visible for the name
    | NoBodyScope(key: string)               // no scope is registered for a loop body
    | NoLedgerScope                          // no function-kind scope encloses the current one and there is no fallback
    | NotCallable(targetType: Option<Type>)  // the target's type is not callable (None: the target has no type field)
    | Unification(reason: string)            // raised by the unifier, passed on unchanged

  datatype Outcome = Outcome(result: Result<Arg, Error>, trace: seq<Effect>)

  datatype ArgsOutcome = ArgsOutcome(result: Result<seq<Arg>, Error>, trace: seq<Effect>)

  datatype TypeOutcome = TypeOutcome(result: Result<Type, Error>, trace: seq<Effect>)

  const Mixed := Named("mixed")
  const Undefined := Named("undefined")
  const StringType := Named("string")
  const EmptyObject := ObjectT("{ }", [])

  /** The name a one-operand node's target is resolved under: its operator, or "return". */
  function OperatorName(operator: string): string
  {
    if operator != "" then operator else "return"
  }

  function Lookup(env: Env, name: string, loc: Loc, cur: ScopeId): (r: Result<Binding, Error>)
    ensures r.Ok? <==> env.lookup(name, loc, cur).Some?
    ensures r.Ok? ==> r.value == env.lookup(name, loc, cur).value
    ensures r.Err? ==> r.error == Unresolved(name, loc)
  {
    match env.lookup(name, loc, cur)
    case None => Err(Unresolved(name, loc))
    case Some(b) => Ok(b)
  }

  /** A pure reference: the binding found for the name, and no effect. */
  function Reference(env: Env, name: string, loc: Loc, cur: ScopeId): Outcome
  {
    match Lookup(env, name, loc, cur)
    case Err(e) => Outcome(Err(e), [])
    case Ok(b) => Outcome(Ok(BindingArg(b)), [])
  }

  /**
    The common tail of every call-shaped node: check that the target is
    callable, ask the unifier for the result type, and only then push the
    record on the ledger scope's ledger. `trace` holds the effects that came
    before.
  */
  function Finish(g: ScopeTree, env: Env, cur: ScopeId, target: Arg, targetName: string,
                  args: seq<Arg>, genericArgs: Option<seq<Arg>>, loc: Loc, trace: seq<Effect>): (o: Outcome)
    requires WellFormed(g) && cur < |g.scopes|
    ensures o.result.Ok? <==>
      && target.BindingArg? && IsCallable(target.b.ty)
      && env.unify(target.b.ty, TypeArgs(args), genericArgs, Some(loc)).Ok?
      && LedgerScope(g, cur).Some?
    ensures o.result.Ok? ==>
      && o.result == Ok(TypeArg(env.unify(target.b.ty, TypeArgs(args), genericArgs, Some(loc)).value))
      && o.trace == trace + [Recorded(LedgerScope(g, cur).value, CallMeta(target.b, args, loc, targetName))]
    ensures o.result.Err? ==> o.trace == trace
    ensures !(target.BindingArg? && IsCallable(target.b.ty)) ==>
      o.result == Err(NotCallable(if target.BindingArg? then Some(target.b.ty) else None))
    ensures target.BindingArg? && IsCallable(target.b.ty) && env.unify(target.b.ty, TypeArgs(args), genericArgs, Some(loc)).Err? ==>
      o.result == Err(Unification(env.unify(target.b.ty, TypeArgs(args), genericArgs, Some(loc)).error))
    ensures target.BindingArg? && IsCallable(target.b.ty) && env.unify(target.b.ty, TypeArgs(args), genericArgs, Some(loc)).Ok?
            && LedgerScope(g, cur).None? ==>
      o.result == Err(NoLedgerScope)
  {
    if !(target.BindingArg? && IsCallable(target.b.ty)) then
      Outcome(Err(NotCallable(if target.BindingArg? then Some(target.b.ty) else None)), trace)
    else
      match env.unify(target.b.ty, TypeArgs(args), genericArgs, Some(loc))
      case Err(m) => Outcome(Err(Unification(m)), trace)
      case Ok(t) =>
        match LedgerScope(g, cur)
        case None => Outcome(Err(NoLedgerScope), trace)
        case Some(callsScope) => Outcome(Ok(TypeArg(t)), trace + [Recorded(callsScope, CallMeta(target.b, args, loc, targetName))])
  }

  /** addCallToTypeGraph(node, typeGraph, currentScope). */
  function Normalize(g: ScopeTree, env: Env, n: Node, cur: ScopeId): Outcome
    requires WellFormed(g) && cur < |g.scopes|
    decreases Size(n), 2
  {
    match env.typeScope(cur)
    case None => Outcome(Err(NotAScope), [])
    case Some(ts) =>
      match n
      case TestStatement(_, _, _) => NormalizeTest(g, env, n, cur)
      case ForStatement(_, _, _) => NormalizeFor(g, env, n, cur)
      case Anonymous(_, loc) => Reference(env, env.anonymousKey(n), loc, cur)
      case Identifier(name, loc) => Reference(env, name, loc, cur)
      case VariableDeclarator(_, _, _, _) => NormalizeDeclarator(g, env, n, cur)
      case ExpressionStatement(e) => Normalize(g, env, e, cur)
      case ThrowStatement(_, _) => NormalizeThrow(g, env, n, cur)
      case Operand(_, _, _, _) => NormalizeOperand(g, env, n, cur)
      case Infix(_, _, _, _, _) => NormalizeInfix(g, env, n, cur)
      case MemberExpression(_, _, _, _) => NormalizeMember(g, env, n, cur)
      case ConditionalExpression(_, _, _, _) => NormalizeConditional(g, env, n, cur)
      case CallExpression(_, _, _) => NormalizeCall(g, env, n, cur)
      case NewExpression(_, _, _) => NormalizeNew(g, env, n, cur)
      case Other(_, _) => Outcome(Ok(TypeArg(env.infer(n, ts, cur))), [])
  }

  /** The arguments of a call or `new`, normalised left to right; the first failure stops. */
  function NormalizeAll(g: ScopeTree, env: Env, ns: seq<Node>, cur: ScopeId): ArgsOutcome
    requires WellFormed(g) && cur < |g.scopes|
    decreases SizeList(ns), 2
  {
    if |ns| == 0 then ArgsOutcome(Ok([]), [])
    else
      var head := Normalize(g, env, ns[0], cur);
      if head.result.Err? then ArgsOutcome(Err(head.result.error), head.trace)
      else
        var tail := NormalizeAll(g, env, ns[1..], cur);
        if tail.result.Err? then ArgsOutcome(tail.result, head.trace + tail.trace)
        else ArgsOutcome(Ok([head.result.value] + tail.result.value), head.trace + tail.trace)
  }

  /** `if`, `while`, `do-while`: the keyword is resolved first, then the test. */
  function NormalizeTest(g: ScopeTree, env: Env, n: Node, cur: ScopeId): Outcome
    requires WellFormed(g) && cur < |g.scopes| && n.TestStatement?
    decreases Size(n), 1
  {
    match Lookup(env, Keyword(n.testKind), n.loc, cur)
    case Err(e) => Outcome(Err(e), [])
    case Ok(target) =>
      var test := Normalize(g, env, n.test, cur);
      if test.result.Err? then test
      else Finish(g, env, cur, BindingArg(target), "", [test.result.value], None, n.loc, test.trace)
  }

  /** `for`: three arguments; the test, when present, is normalised in the body's scope. */
  function NormalizeFor(g: ScopeTree, env: Env, n: Node, cur: ScopeId): Outcome
    requires WellFormed(g) && cur < |g.scopes| && n.ForStatement?
    decreases Size(n), 1
  {
    match Lookup(env, "for", n.loc, cur)
    case Err(e) => Outcome(Err(e), [])
    case Ok(target) =>
      var test :=
        match n.forTest
        case None => Outcome(Ok(TypeArg(Undefined)), [])
        case Some(t) =>
          if n.bodyKey in g.body then Normalize(g, env, t, g.body[n.bodyKey])
          else Outcome(Err(NoBodyScope(n.bodyKey)), []);
      if test.result.Err? then test
      else Finish(g, env, cur, BindingArg(target), "", [TypeArg(Mixed), test.result.value, TypeArg(Mixed)], None, n.loc, test.trace)
  }

  /** A declarator: its binding, or an `=` call of the binding and the initialiser. */
  function NormalizeDeclarator(g: ScopeTree, env: Env, n: Node, cur: ScopeId): Outcome
    requires WellFormed(g) && cur < |g.scopes| && n.VariableDeclarator?
    decreases Size(n), 1
  {
    match Lookup(env, n.idName, n.idLoc, cur)
    case Err(e) => Outcome(Err(e), [])
    case Ok(variable) =>
      match n.init
      case None => Outcome(Ok(BindingArg(variable)), [])
      case Some(i) =>
        var init := Normalize(g, env, i, cur);
        if init.result.Err? then init
        else
          match Lookup(env, "=", n.loc, cur)
          case Err(e) => Outcome(Err(e), init.trace)
          case Ok(target) =>
            Finish(g, env, cur, BindingArg(target), "=", [BindingArg(variable), init.result.value], None, n.loc, init.trace)
  }

  /** `throw`: the thrown value is added to the current scope's throwables before the call is checked. */
  function NormalizeThrow(g: ScopeTree, env: Env, n: Node, cur: ScopeId): Outcome
    requires WellFormed(g) && cur < |g.scopes| && n.ThrowStatement?
    decreases Size(n), 1
  {
    var thrown := Normalize(g, env, n.argument, cur);
    if thrown.result.Err? then thrown
    else
      match Lookup(env, "throw", n.loc, cur)
      case Err(e) => Outcome(Err(e), thrown.trace)
      case Ok(target) =>
        Finish(g, env, cur, BindingArg(target), "throw", [thrown.result.value], None, n.loc,
               thrown.trace + [Thrown(cur, thrown.result.value)])
  }

  /** `return`, unary and update expressions. */
  function NormalizeOperand(g: ScopeTree, env: Env, n: Node, cur: ScopeId): Outcome
    requires WellFormed(g) && cur < |g.scopes| && n.Operand?
    decreases Size(n), 1
  {
    var arg := Normalize(g, env, n.argument, cur);
    if arg.result.Err? then arg
    else
      var name := OperatorName(n.operator);
      match Lookup(env, name, n.loc, cur)
      case Err(e) => Outcome(Err(e), arg.trace)
      case Ok(target) => Finish(g, env, cur, BindingArg(target), name, [arg.result.value], None, n.loc, arg.trace)
  }

  /** Binary, logical and assignment expressions: left, then right, then the operator. */
  function NormalizeInfix(g: ScopeTree, env: Env, n: Node, cur: ScopeId): Outcome
    requires WellFormed(g) && cur < |g.scopes| && n.Infix?
    decreases Size(n), 1
  {
    var left := Normalize(g, env, n.left, cur);
    if left.result.Err? then left
    else
      var right := Normalize(g, env, n.right, cur);
      if right.result.Err? then Outcome(right.result, left.trace + right.trace)
      else
        match Lookup(env, n.operator, n.loc, cur)
        case Err(e) => Outcome(Err(e), left.trace + right.trace)
        case Ok(target) =>
          Finish(g, env, cur, BindingArg(target), n.operator, [left.result.value, right.result.value], None, n.loc,
                 left.trace + right.trace)
  }

  /** Whether a member expression's key is taken as written rather than normalised. */
  predicate IsStaticKey(n: Node)
    requires n.MemberExpression?
  {
    n.property.Identifier? && !n.computed
  }

  /** Member access: a `.` call whose generic arguments are its arguments. */
  function NormalizeMember(g: ScopeTree, env: Env, n: Node, cur: ScopeId): Outcome
    requires WellFormed(g) && cur < |g.scopes| && n.MemberExpression?
    decreases Size(n), 1
  {
    var obj := Normalize(g, env, n.obj, cur);
    if obj.result.Err? then obj
    else
      var key :=
        if IsStaticKey(n) then Outcome(Ok(TypeArg(Literal(n.property.name, StringType))), [])
        else Normalize(g, env, n.property, cur);
      if key.result.Err? then Outcome(key.result, obj.trace + key.trace)
      else
        var args := [obj.result.value, key.result.value];
        match Lookup(env, ".", n.loc, cur)
        case Err(e) => Outcome(Err(e), obj.trace + key.trace)
        case Ok(target) => Finish(g, env, cur, BindingArg(target), ".", args, Some(TypeArgs(args)), n.loc, obj.trace + key.trace)
  }

  /** `c ? a : b`: test, consequent, alternate, then `?:`. */
  function NormalizeConditional(g: ScopeTree, env: Env, n: Node, cur: ScopeId): Outcome
    requires WellFormed(g) && cur < |g.scopes| && n.ConditionalExpression?
    decreases Size(n), 1
  {
    var test := Normalize(g, env, n.test, cur);
    if test.result.Err? then test
    else
      var cons := Normalize(g, env, n.consequent, cur);
      if cons.result.Err? then Outcome(cons.result, test.trace + cons.trace)
      else
        var alt := Normalize(g, env, n.alternate, cur);
        if alt.result.Err? then Outcome(alt.result, test.trace + cons.trace + alt.trace)
        else
          match Lookup(env, "?:", n.loc, cur)
          case Err(e) => Outcome(Err(e), test.trace + cons.trace + alt.trace)
          case Ok(target) =>
            Finish(g, env, cur, BindingArg(target), "?:", [test.result.value, cons.result.value, alt.result.value], None, n.loc,
                   test.trace + cons.trace + alt.trace)
  }

  /** The callee of a call: an identifier is looked up directly, anything else is normalised. */
  function NormalizeCallee(g: ScopeTree, env: Env, n: Node, cur: ScopeId): Outcome
    requires WellFormed(g) && cur < |g.scopes| && n.CallExpression?
    decreases Size(n), 0
  {
    if n.callee.Identifier? then Reference(env, n.callee.name, n.callee.loc, cur)
    else Normalize(g, env, n.callee, cur)
  }

  /** What invoking a call target adds to the current scope's throwables: the binding's throwable, if any. */
  function ThrowableOf(target: Arg, cur: ScopeId): seq<Effect>
  {
    if target.BindingArg? && target.b.throwable.Some? then [Thrown(cur, TypeArg(target.b.throwable.value))] else []
  }

  /** A call expression: the arguments first, then the callee, then the callee's throwable. */
  function NormalizeCall(g: ScopeTree, env: Env, n: Node, cur: ScopeId): Outcome
    requires WellFormed(g) && cur < |g.scopes| && n.CallExpression?
    decreases Size(n), 1
  {
    var args := NormalizeAll(g, env, n.arguments, cur);
    if args.result.Err? then Outcome(Err(args.result.error), args.trace)
    else
      var callee := NormalizeCallee(g, env, n, cur);
      if callee.result.Err? then Outcome(callee.result, args.trace + callee.trace)
      else
        var target := callee.result.value;
        Finish(g, env, cur, target, "", args.result.value, None, n.loc,
               args.trace + callee.trace + ThrowableOf(target, cur))
  }

  /**
    What `new` hands to its constructor call: the unifier's result for a
    callable callee applied to the normalised constructor arguments, or
    else the callee's own type.
  */
  function Constructed(g: ScopeTree, env: Env, n: Node, cur: ScopeId, calleeType: Type): TypeOutcome
    requires WellFormed(g) && cur < |g.scopes| && n.NewExpression?
    decreases Size(n), 0
  {
    if IsCallable(calleeType) then
      var args := NormalizeAll(g, env, n.arguments, cur);
      if args.result.Err? then TypeOutcome(Err(args.result.error), args.trace)
      else
        match env.unify(calleeType, args.result.value, None, None)
        case Err(m) => TypeOutcome(Err(Unification(m)), args.trace)
        case Ok(t) => TypeOutcome(Ok(t), args.trace)
    else TypeOutcome(Ok(calleeType), [])
  }

  /** The single argument of the `new` call: the constructed type when it is an object type, else `{ }`. */
  function NewArgument(potential: Type): Type
  {
    if potential.ObjectT? then potential else EmptyObject
  }

  /** `new C(...)`: the callee, then (when callable) the constructor arguments, then `new`. */
  function NormalizeNew(g: ScopeTree, env: Env, n: Node, cur: ScopeId): Outcome
    requires WellFormed(g) && cur < |g.scopes| && n.NewExpression?
    decreases Size(n), 1
  {
    var callee := Normalize(g, env, n.callee, cur);
    if callee.result.Err? then callee
    else
      var potential := Constructed(g, env, n, cur, TypeOf(callee.result.value));
      var trace := callee.trace + potential.trace;
      if potential.result.Err? then Outcome(Err(potential.result.error), trace)
      else
        match Lookup(env, "new", n.loc, cur)
        case Err(e) => Outcome(Err(e), trace)
        case Ok(target) =>
          Finish(g, env, cur, BindingArg(target), "new", [TypeArg(NewArgument(potential.result.value))], None, n.loc, trace)
  }
}
