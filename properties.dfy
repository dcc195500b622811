/**
  What the normaliser promises, stated over the specification in module
  Call: which record lands in which ledger, in what order and with what
  arguments; what is added to throwable accumulators; and when it fails.
*/
module CallProperties {
  import opened Wrappers
  import opened Types
  import opened Scopes
  import opened Ast
  import opened Call

  /**
    Every effect names an existing scope, and every call record lands in a
    function-kind scope or, failing one, in the fallback scope.
  */
  ghost predicate InScopes(g: ScopeTree, trace: seq<Effect>)
  {
    forall i :: 0 <= i < |trace| ==>
      && trace[i].scope < |g.scopes|
      && (trace[i].Recorded? ==> g.scopes[trace[i].scope].isFunction || g.fallback == Some(trace[i].scope))
  }

  lemma InScopesConcat(g: ScopeTree, a: seq<Effect>, b: seq<Effect>)
    requires InScopes(g, a) && InScopes(g, b)
    ensures InScopes(g, a + b)
  {
  }

  /** The record the common tail pushes lands in a function-kind scope or the fallback. */
  lemma FinishInScopes(g: ScopeTree, env: Env, cur: ScopeId, target: Arg, targetName: string,
                       args: seq<Arg>, genericArgs: Option<seq<Arg>>, loc: Loc, pre: seq<Effect>)
    requires WellFormed(g) && cur < |g.scopes| && InScopes(g, pre)
    ensures InScopes(g, Finish(g, env, cur, target, targetName, args, genericArgs, loc, pre).trace)
  {
  }

  /**
    Whatever the node, every call record the normaliser pushes goes to the
    ledger of a function-kind scope of the tree, or of the fallback scope when
    no function-kind scope encloses the one it is made in; and every effect
    names a scope of the tree. (That the scope is the nearest function-kind
    one is CallShapedNodeRecordsLast.)
  */
  lemma {:induction false} EffectsLandInScopes(g: ScopeTree, env: Env, n: Node, cur: ScopeId)
    requires WellFormed(g) && cur < |g.scopes|
    ensures InScopes(g, Normalize(g, env, n, cur).trace)
    decreases Size(n), 1
  {
    if env.typeScope(cur).None? {
      return;
    }
    match n {
      case TestStatement(_, test, loc) =>
        EffectsLandInScopes(g, env, test, cur);
        var t := Normalize(g, env, test, cur);
        if Lookup(env, Keyword(n.testKind), loc, cur).Ok? && t.result.Ok? {
          FinishInScopes(g, env, cur, BindingArg(Lookup(env, Keyword(n.testKind), loc, cur).value), "", [t.result.value], None, loc, t.trace);
        }
      case ForStatement(forTest, key, loc) =>
        if forTest.Some? && key in g.body {
          EffectsLandInScopes(g, env, forTest.value, g.body[key]);
        }
        var test :=
          if forTest.None? then Outcome(Ok(TypeArg(Undefined)), [])
          else if key in g.body then Normalize(g, env, forTest.value, g.body[key])
          else Outcome(Err(NoBodyScope(key)), []);
        if Lookup(env, "for", loc, cur).Ok? && test.result.Ok? {
          FinishInScopes(g, env, cur, BindingArg(Lookup(env, "for", loc, cur).value), "", [TypeArg(Mixed), test.result.value, TypeArg(Mixed)], None, loc, test.trace);
        }
      case Anonymous(_, _) =>
      case Identifier(_, _) =>
      case VariableDeclarator(idName, idLoc, init, loc) =>
        if init.Some? {
          EffectsLandInScopes(g, env, init.value, cur);
          var i := Normalize(g, env, init.value, cur);
          if Lookup(env, idName, idLoc, cur).Ok? && i.result.Ok? && Lookup(env, "=", loc, cur).Ok? {
            FinishInScopes(g, env, cur, BindingArg(Lookup(env, "=", loc, cur).value), "=",
                           [BindingArg(Lookup(env, idName, idLoc, cur).value), i.result.value], None, loc, i.trace);
          }
        }
      case ExpressionStatement(e) =>
        EffectsLandInScopes(g, env, e, cur);
      case ThrowStatement(argument, loc) =>
        EffectsLandInScopes(g, env, argument, cur);
        var a := Normalize(g, env, argument, cur);
        if a.result.Ok? && Lookup(env, "throw", loc, cur).Ok? {
          InScopesConcat(g, a.trace, [Thrown(cur, a.result.value)]);
          FinishInScopes(g, env, cur, BindingArg(Lookup(env, "throw", loc, cur).value), "throw", [a.result.value], None, loc,
                         a.trace + [Thrown(cur, a.result.value)]);
        }
      case Operand(_, operator, argument, loc) =>
        EffectsLandInScopes(g, env, argument, cur);
        var a := Normalize(g, env, argument, cur);
        var name := OperatorName(operator);
        if a.result.Ok? && Lookup(env, name, loc, cur).Ok? {
          FinishInScopes(g, env, cur, BindingArg(Lookup(env, name, loc, cur).value), name, [a.result.value], None, loc, a.trace);
        }
      case Infix(_, operator, left, right, loc) =>
        EffectsLandInScopes(g, env, left, cur);
        EffectsLandInScopes(g, env, right, cur);
        var l := Normalize(g, env, left, cur);
        var r := Normalize(g, env, right, cur);
        InScopesConcat(g, l.trace, r.trace);
        if l.result.Ok? && r.result.Ok? && Lookup(env, operator, loc, cur).Ok? {
          FinishInScopes(g, env, cur, BindingArg(Lookup(env, operator, loc, cur).value), operator,
                         [l.result.value, r.result.value], None, loc, l.trace + r.trace);
        }
      case MemberExpression(obj, property, _, loc) =>
        EffectsLandInScopes(g, env, obj, cur);
        EffectsLandInScopes(g, env, property, cur);
        var o := Normalize(g, env, obj, cur);
        var key :=
          if IsStaticKey(n) then Outcome(Ok(TypeArg(Literal(property.name, StringType))), [])
          else Normalize(g, env, property, cur);
        InScopesConcat(g, o.trace, key.trace);
        if o.result.Ok? && key.result.Ok? && Lookup(env, ".", loc, cur).Ok? {
          var args := [o.result.value, key.result.value];
          FinishInScopes(g, env, cur, BindingArg(Lookup(env, ".", loc, cur).value), ".", args, Some(TypeArgs(args)), loc, o.trace + key.trace);
        }
      case ConditionalExpression(test, consequent, alternate, loc) =>
        EffectsLandInScopes(g, env, test, cur);
        EffectsLandInScopes(g, env, consequent, cur);
        EffectsLandInScopes(g, env, alternate, cur);
        var t := Normalize(g, env, test, cur);
        var c := Normalize(g, env, consequent, cur);
        var a := Normalize(g, env, alternate, cur);
        InScopesConcat(g, t.trace, c.trace);
        InScopesConcat(g, t.trace + c.trace, a.trace);
        if t.result.Ok? && c.result.Ok? && a.result.Ok? && Lookup(env, "?:", loc, cur).Ok? {
          FinishInScopes(g, env, cur, BindingArg(Lookup(env, "?:", loc, cur).value), "?:",
                         [t.result.value, c.result.value, a.result.value], None, loc, t.trace + c.trace + a.trace);
        }
      case CallExpression(callee, arguments, loc) =>
        EffectsLandInScopesAll(g, env, arguments, cur);
        EffectsLandInScopes(g, env, callee, cur);
        var args := NormalizeAll(g, env, arguments, cur);
        var c := NormalizeCallee(g, env, n, cur);
        InScopesConcat(g, args.trace, c.trace);
        if args.result.Ok? && c.result.Ok? {
          InScopesConcat(g, args.trace + c.trace, ThrowableOf(c.result.value, cur));
          FinishInScopes(g, env, cur, c.result.value, "", args.result.value, None, loc,
                         args.trace + c.trace + ThrowableOf(c.result.value, cur));
        }
      case NewExpression(callee, arguments, loc) =>
        EffectsLandInScopes(g, env, callee, cur);
        EffectsLandInScopesAll(g, env, arguments, cur);
        var c := Normalize(g, env, callee, cur);
        if c.result.Ok? {
          var p := Constructed(g, env, n, cur, TypeOf(c.result.value));
          InScopesConcat(g, c.trace, p.trace);
          if p.result.Ok? && Lookup(env, "new", loc, cur).Ok? {
            FinishInScopes(g, env, cur, BindingArg(Lookup(env, "new", loc, cur).value), "new",
                           [TypeArg(NewArgument(p.result.value))], None, loc, c.trace + p.trace);
          }
        }
      case Other(_, _) =>
    }
  }

  lemma {:induction false} EffectsLandInScopesAll(g: ScopeTree, env: Env, ns: seq<Node>, cur: ScopeId)
    requires WellFormed(g) && cur < |g.scopes|
    ensures InScopes(g, NormalizeAll(g, env, ns, cur).trace)
    decreases SizeList(ns), 1
  {
    if |ns| > 0 {
      EffectsLandInScopes(g, env, ns[0], cur);
      EffectsLandInScopesAll(g, env, ns[1..], cur);
      InScopesConcat(g, Normalize(g, env, ns[0], cur).trace, NormalizeAll(g, env, ns[1..], cur).trace);
    }
  }

  /**
    A list of call or constructor arguments succeeds exactly when each of its
    elements does, and then holds their results in source order.
  */
  lemma {:induction false} ArgumentsInSourceOrder(g: ScopeTree, env: Env, ns: seq<Node>, cur: ScopeId)
    requires WellFormed(g) && cur < |g.scopes|
    ensures NormalizeAll(g, env, ns, cur).result.Ok? <==> forall i :: 0 <= i < |ns| ==> Normalize(g, env, ns[i], cur).result.Ok?
    ensures NormalizeAll(g, env, ns, cur).result.Ok? ==>
      && |NormalizeAll(g, env, ns, cur).result.value| == |ns|
      && forall i :: 0 <= i < |ns| ==> Normalize(g, env, ns[i], cur).result == Ok(NormalizeAll(g, env, ns, cur).result.value[i])
    decreases |ns|
  {
    if |ns| > 0 {
      ArgumentsInSourceOrder(g, env, ns[1..], cur);
      var head := Normalize(g, env, ns[0], cur);
      var tail := NormalizeAll(g, env, ns[1..], cur);
      forall i | 1 <= i < |ns| ensures ns[i] == ns[1..][i - 1] { }
      if head.result.Ok? && tail.result.Ok? {
        var all := NormalizeAll(g, env, ns, cur).result.value;
        assert all == [head.result.value] + tail.result.value;
        forall i | 1 <= i < |ns| ensures all[i] == tail.result.value[i - 1] { }
      }
    }
  }

  /** Before anything else: when the nearest type scope is not a Scope, the node fails with no effect. */
  lemma NotAScopeFailsFirst(g: ScopeTree, env: Env, n: Node, cur: ScopeId)
    requires WellFormed(g) && cur < |g.scopes| && env.typeScope(cur).None?
    ensures Normalize(g, env, n, cur) == Outcome(Err(NotAScope), [])
  {
  }

  /** Identifiers, function and arrow expressions and classes return the looked-up binding and record nothing. */
  lemma ReferenceReturnsLookup(g: ScopeTree, env: Env, n: Node, cur: ScopeId)
    requires WellFormed(g) && cur < |g.scopes| && env.typeScope(cur).Some?
    requires n.Identifier? || n.Anonymous?
    ensures var name := if n.Identifier? then n.name else env.anonymousKey(n);
      && Normalize(g, env, n, cur).trace == []
      && (env.lookup(name, n.loc, cur).Some? ==> Normalize(g, env, n, cur).result == Ok(BindingArg(env.lookup(name, n.loc, cur).value)))
      && (env.lookup(name, n.loc, cur).None? ==> Normalize(g, env, n, cur).result == Err(Unresolved(name, n.loc)))
  {
  }

  /** An expression statement is its expression: same value, same effects. */
  lemma ExpressionStatementForwards(g: ScopeTree, env: Env, n: Node, cur: ScopeId)
    requires WellFormed(g) && cur < |g.scopes| && env.typeScope(cur).Some? && n.ExpressionStatement?
    ensures Normalize(g, env, n, cur) == Normalize(g, env, n.expression, cur)
  {
  }

  /** Every kind the normaliser does not desugar goes to the leaf inferencer, with no effect. */
  lemma OtherNodesAreInferred(g: ScopeTree, env: Env, n: Node, cur: ScopeId)
    requires WellFormed(g) && cur < |g.scopes| && env.typeScope(cur).Some? && n.Other?
    ensures Normalize(g, env, n, cur) == Outcome(Ok(TypeArg(env.infer(n, env.typeScope(cur).value, cur))), [])
  {
  }

  /** The target name a call-shaped node's record carries. */
  function TargetName(n: Node): string
    requires IsCallShaped(n)
  {
    match n
    case VariableDeclarator(_, _, _, _) => "="
    case ThrowStatement(_, _) => "throw"
    case Operand(_, operator, _, _) => OperatorName(operator)
    case Infix(_, operator, _, _, _) => operator
    case MemberExpression(_, _, _, _) => "."
    case ConditionalExpression(_, _, _, _) => "?:"
    case NewExpression(_, _, _) => "new"
    case _ => ""   // if, while, do-while, for and call expressions keep the initial ""
  }

  /** The generic arguments handed to the unifier: only member access has them. */
  function GenericArgsOf(n: Node, args: seq<Arg>): Option<seq<Arg>>
  {
    if n.MemberExpression? then Some(TypeArgs(args)) else None
  }

  /**
    Post-order: a call-shaped node that succeeds ends its trace with exactly
    its own record, pushed on the ledger scope's ledger (the nearest
    function-kind scope, by LedgerScopeIsNearestFunctionScope), naming a callable target, the node's location and its target name; and
    the node's value is what the unifier returned for that record.
  */
  lemma CallShapedNodeRecordsLast(g: ScopeTree, env: Env, n: Node, cur: ScopeId)
    requires WellFormed(g) && cur < |g.scopes| && IsCallShaped(n)
    requires Normalize(g, env, n, cur).result.Ok?
    ensures var o := Normalize(g, env, n, cur);
      && LedgerScope(g, cur).Some?
      && |o.trace| > 0
      && o.trace[|o.trace| - 1].Recorded?
      && o.trace[|o.trace| - 1].scope == LedgerScope(g, cur).value
      && var m := o.trace[|o.trace| - 1].meta;
      && m.loc == n.loc
      && m.targetName == TargetName(n)
      && IsCallable(m.target.ty)
      && env.unify(m.target.ty, TypeArgs(m.arguments), GenericArgsOf(n, m.arguments), Some(n.loc)).Ok?
      && o.result == Ok(TypeArg(env.unify(m.target.ty, TypeArgs(m.arguments), GenericArgsOf(n, m.arguments), Some(n.loc)).value))
  {
  }

  /** A declarator without an initialiser returns its binding and records nothing. */
  lemma DeclaratorWithoutInit(g: ScopeTree, env: Env, n: Node, cur: ScopeId)
    requires WellFormed(g) && cur < |g.scopes| && env.typeScope(cur).Some?
    requires n.VariableDeclarator? && n.init.None? && env.lookup(n.idName, n.idLoc, cur).Some?
    ensures Normalize(g, env, n, cur) == Outcome(Ok(BindingArg(env.lookup(n.idName, n.idLoc, cur).value)), [])
  {
  }

  /** A declarator with an initialiser is an `=` call of its binding and the initialiser's value. */
  lemma DeclaratorWithInit(g: ScopeTree, env: Env, n: Node, cur: ScopeId)
    requires WellFormed(g) && cur < |g.scopes|
    requires n.VariableDeclarator? && n.init.Some? && Normalize(g, env, n, cur).result.Ok?
    ensures LedgerScope(g, cur).Some?
    ensures var init := Normalize(g, env, n.init.value, cur);
      && env.lookup(n.idName, n.idLoc, cur).Some? && env.lookup("=", n.loc, cur).Some?
      && init.result.Ok?
      && Normalize(g, env, n, cur).trace == init.trace + [Recorded(LedgerScope(g, cur).value,
           CallMeta(env.lookup("=", n.loc, cur).value,
                    [BindingArg(env.lookup(n.idName, n.idLoc, cur).value), init.result.value], n.loc, "="))]
  {
  }

  /** `if`, `while` and `do-while`: one argument, the test; the record's target name stays "". */
  lemma TestStatementHasOneArgument(g: ScopeTree, env: Env, n: Node, cur: ScopeId)
    requires WellFormed(g) && cur < |g.scopes|
    requires n.TestStatement? && Normalize(g, env, n, cur).result.Ok?
    ensures LedgerScope(g, cur).Some?
    ensures var test := Normalize(g, env, n.test, cur);
      && env.lookup(Keyword(n.testKind), n.loc, cur).Some? && test.result.Ok?
      && Normalize(g, env, n, cur).trace == test.trace + [Recorded(LedgerScope(g, cur).value,
           CallMeta(env.lookup(Keyword(n.testKind), n.loc, cur).value, [test.result.value], n.loc, ""))]
  {
  }

  /**
    `for`: always three arguments, `mixed`, the test (normalised in the scope
    registered for the loop body) or `undefined`, and `mixed`.
  */
  lemma ForHasThreeArguments(g: ScopeTree, env: Env, n: Node, cur: ScopeId)
    requires WellFormed(g) && cur < |g.scopes|
    requires n.ForStatement? && Normalize(g, env, n, cur).result.Ok?
    ensures LedgerScope(g, cur).Some?
    ensures env.lookup("for", n.loc, cur).Some?
    ensures n.forTest.None? ==>
      Normalize(g, env, n, cur).trace == [Recorded(LedgerScope(g, cur).value,
        CallMeta(env.lookup("for", n.loc, cur).value, [TypeArg(Mixed), TypeArg(Undefined), TypeArg(Mixed)], n.loc, ""))]
    ensures n.forTest.Some? ==>
      && n.bodyKey in g.body
      && var test := Normalize(g, env, n.forTest.value, g.body[n.bodyKey]);
      && test.result.Ok?
      && Normalize(g, env, n, cur).trace == test.trace + [Recorded(LedgerScope(g, cur).value,
           CallMeta(env.lookup("for", n.loc, cur).value, [TypeArg(Mixed), test.result.value, TypeArg(Mixed)], n.loc, ""))]
  {
  }

  /** `throw`: the thrown value joins the current scope's throwables, just before the `throw` record. */
  lemma ThrowAddsToThrowables(g: ScopeTree, env: Env, n: Node, cur: ScopeId)
    requires WellFormed(g) && cur < |g.scopes|
    requires n.ThrowStatement? && Normalize(g, env, n, cur).result.Ok?
    ensures LedgerScope(g, cur).Some?
    ensures var a := Normalize(g, env, n.argument, cur);
      && a.result.Ok? && env.lookup("throw", n.loc, cur).Some?
      && Normalize(g, env, n, cur).trace == a.trace + [Thrown(cur, a.result.value), Recorded(LedgerScope(g, cur).value,
           CallMeta(env.lookup("throw", n.loc, cur).value, [a.result.value], n.loc, "throw"))]
  {
  }

  /** `return`, unary and update: one argument; the target is the operator, or "return" when there is none. */
  lemma OperandHasOneArgument(g: ScopeTree, env: Env, n: Node, cur: ScopeId)
    requires WellFormed(g) && cur < |g.scopes|
    requires n.Operand? && Normalize(g, env, n, cur).result.Ok?
    ensures LedgerScope(g, cur).Some?
    ensures var a := Normalize(g, env, n.argument, cur);
      var name := if n.operator == "" then "return" else n.operator;
      && a.result.Ok? && env.lookup(name, n.loc, cur).Some?
      && Normalize(g, env, n, cur).trace == a.trace + [Recorded(LedgerScope(g, cur).value,
           CallMeta(env.lookup(name, n.loc, cur).value, [a.result.value], n.loc, name))]
  {
  }

  /** `a OP b`: one record for OP with the two operands' values, after both operands' records. */
  lemma InfixIsOneCallOfItsOperator(g: ScopeTree, env: Env, n: Node, cur: ScopeId)
    requires WellFormed(g) && cur < |g.scopes|
    requires n.Infix? && Normalize(g, env, n, cur).result.Ok?
    ensures LedgerScope(g, cur).Some?
    ensures var l := Normalize(g, env, n.left, cur);
      var r := Normalize(g, env, n.right, cur);
      && l.result.Ok? && r.result.Ok? && env.lookup(n.operator, n.loc, cur).Some?
      && Normalize(g, env, n, cur).trace == l.trace + r.trace + [Recorded(LedgerScope(g, cur).value,
           CallMeta(env.lookup(n.operator, n.loc, cur).value, [l.result.value, r.result.value], n.loc, n.operator))]
  {
  }

  /** `c ? a : b`: one `?:` record with the three values, after their records. */
  lemma ConditionalHasThreeArguments(g: ScopeTree, env: Env, n: Node, cur: ScopeId)
    requires WellFormed(g) && cur < |g.scopes|
    requires n.ConditionalExpression? && Normalize(g, env, n, cur).result.Ok?
    ensures LedgerScope(g, cur).Some?
    ensures var t := Normalize(g, env, n.test, cur);
      var c := Normalize(g, env, n.consequent, cur);
      var a := Normalize(g, env, n.alternate, cur);
      && t.result.Ok? && c.result.Ok? && a.result.Ok? && env.lookup("?:", n.loc, cur).Some?
      && Normalize(g, env, n, cur).trace == t.trace + c.trace + a.trace + [Recorded(LedgerScope(g, cur).value,
           CallMeta(env.lookup("?:", n.loc, cur).value, [t.result.value, c.result.value, a.result.value], n.loc, "?:"))]
  {
  }

  /**
    Member access: the generic arguments are the arguments; a non-computed
    identifier key becomes a literal of `string` named after the key and is
    not normalised.
  */
  lemma MemberGenericArgumentsAreItsArguments(g: ScopeTree, env: Env, n: Node, cur: ScopeId)
    requires WellFormed(g) && cur < |g.scopes|
    requires n.MemberExpression? && Normalize(g, env, n, cur).result.Ok?
    ensures LedgerScope(g, cur).Some? && env.lookup(".", n.loc, cur).Some?
    ensures Normalize(g, env, n.obj, cur).result.Ok?
    ensures !IsStaticKey(n) ==> Normalize(g, env, n.property, cur).result.Ok?
    ensures var obj := Normalize(g, env, n.obj, cur);
      var key := if IsStaticKey(n) then Outcome(Ok(TypeArg(Literal(n.property.name, Named("string")))), [])
                 else Normalize(g, env, n.property, cur);
      var args := [obj.result.value, key.result.value];
      var dot := env.lookup(".", n.loc, cur).value;
      && Normalize(g, env, n, cur).trace == obj.trace + key.trace + [Recorded(LedgerScope(g, cur).value, CallMeta(dot, args, n.loc, "."))]
      && env.unify(dot.ty, TypeArgs(args), Some(TypeArgs(args)), Some(n.loc)).Ok?
      && Normalize(g, env, n, cur).result == Ok(TypeArg(env.unify(dot.ty, TypeArgs(args), Some(TypeArgs(args)), Some(n.loc)).value))
  {
  }

  /**
    A call expression: its arguments' records come first, then the callee's,
    then the target's throwable (only when it has one) joins the current
    scope's throwables, then the call's own record, whose target name stays "".
    An identifier callee is looked up, with no effect of its own.
  */
  lemma CallExpressionOrder(g: ScopeTree, env: Env, n: Node, cur: ScopeId)
    requires WellFormed(g) && cur < |g.scopes|
    requires n.CallExpression? && Normalize(g, env, n, cur).result.Ok?
    ensures LedgerScope(g, cur).Some?
    ensures NormalizeAll(g, env, n.arguments, cur).result.Ok?
    ensures var callee := NormalizeCallee(g, env, n, cur);
      && callee.result.Ok? && callee.result.value.BindingArg?
      && (n.callee.Identifier? ==> callee.trace == [] && env.lookup(n.callee.name, n.callee.loc, cur) == Some(callee.result.value.b))
      && (!n.callee.Identifier? ==> callee == Normalize(g, env, n.callee, cur))
    ensures var args := NormalizeAll(g, env, n.arguments, cur);
      var callee := NormalizeCallee(g, env, n, cur);
      var target := callee.result.value.b;
      Normalize(g, env, n, cur).trace
      == args.trace + callee.trace
         + (if target.throwable.Some? then [Thrown(cur, TypeArg(target.throwable.value))] else [])
         + [Recorded(LedgerScope(g, cur).value, CallMeta(target, args.result.value, n.loc, ""))]
  {
  }

  /** A callee that comes back as a bare type has no `type` field to check, so the call fails. */
  lemma CallOnBareTypeFails(g: ScopeTree, env: Env, n: Node, cur: ScopeId)
    requires WellFormed(g) && cur < |g.scopes| && env.typeScope(cur).Some?
    requires n.CallExpression? && !n.callee.Identifier?
    requires NormalizeAll(g, env, n.arguments, cur).result.Ok?
    requires Normalize(g, env, n.callee, cur).result.Ok? && Normalize(g, env, n.callee, cur).result.value.TypeArg?
    ensures Normalize(g, env, n, cur).result == Err(NotCallable(None))
    ensures Normalize(g, env, n, cur).trace == NormalizeAll(g, env, n.arguments, cur).trace + Normalize(g, env, n.callee, cur).trace
  {
    assert NormalizeCallee(g, env, n, cur) == Normalize(g, env, n.callee, cur);
    assert Normalize(g, env, n, cur) == NormalizeCall(g, env, n, cur);
  }

  /**
    `new`: one argument, always an object type. A callable callee is
    unified with the constructor arguments (no generic arguments, no
    location, no record) and the result is used when it is an object type;
    otherwise `{ }` is used. A callee that is not callable contributes its
    own type on the same terms, and its constructor arguments are never
    normalised.
  */
  lemma NewPassesOneObject(g: ScopeTree, env: Env, n: Node, cur: ScopeId)
    requires WellFormed(g) && cur < |g.scopes|
    requires n.NewExpression? && Normalize(g, env, n, cur).result.Ok?
    ensures LedgerScope(g, cur).Some? && env.lookup("new", n.loc, cur).Some?
    ensures Normalize(g, env, n.callee, cur).result.Ok?
    ensures IsCallable(TypeOf(Normalize(g, env, n.callee, cur).result.value)) ==>
      && NormalizeAll(g, env, n.arguments, cur).result.Ok?
      && env.unify(TypeOf(Normalize(g, env, n.callee, cur).result.value), NormalizeAll(g, env, n.arguments, cur).result.value, None, None).Ok?
    ensures var callee := Normalize(g, env, n.callee, cur);
      var calleeType := TypeOf(callee.result.value);
      var args := NormalizeAll(g, env, n.arguments, cur);
      var constructed := if IsCallable(calleeType) then env.unify(calleeType, args.result.value, None, None).value else calleeType;
      var argsTrace := if IsCallable(calleeType) then args.trace else [];
      var passed := if constructed.ObjectT? then constructed else ObjectT("{ }", []);
      Normalize(g, env, n, cur).trace == callee.trace + argsTrace + [Recorded(LedgerScope(g, cur).value,
        CallMeta(env.lookup("new", n.loc, cur).value, [TypeArg(passed)], n.loc, "new"))]
  {
    var callee := Normalize(g, env, n.callee, cur);
    assert Normalize(g, env, n, cur) == NormalizeNew(g, env, n, cur);
    assert callee.result.Ok?;
    var p := Constructed(g, env, n, cur, TypeOf(callee.result.value));
    assert p.result.Ok?;
  }

  /** The name a call-shaped node resolves its own target under (a call only when its callee is an identifier). */
  function TargetLookupName(n: Node): string
    requires IsCallShaped(n)
  {
    match n
    case TestStatement(k, _, _) => Keyword(k)
    case ForStatement(_, _, _) => "for"
    case VariableDeclarator(_, _, _, _) => "="
    case ThrowStatement(_, _) => "throw"
    case Operand(_, operator, _, _) => OperatorName(operator)
    case Infix(_, operator, _, _, _) => operator
    case MemberExpression(_, _, _, _) => "."
    case ConditionalExpression(_, _, _, _) => "?:"
    case NewExpression(_, _, _) => "new"
    case CallExpression(callee, _, _) => if callee.Identifier? then callee.name else ""
  }

  /** The location that lookup is made at. */
  function TargetLookupLoc(n: Node): Loc
    requires IsCallShaped(n)
  {
    if n.CallExpression? && n.callee.Identifier? then n.callee.loc else n.loc
  }

  /**
    The sub-nodes a call-shaped node other than `new` normalises before it
    resolves its target, in order: none for the statements that resolve
    their keyword first.
  */
  function OperandsBeforeLookup(n: Node): seq<Node>
    requires IsCallShaped(n) && !n.NewExpression?
  {
    match n
    case TestStatement(_, _, _) => []
    case ForStatement(_, _, _) => []
    case VariableDeclarator(_, _, init, _) => [init.value]
    case ThrowStatement(a, _) => [a]
    case Operand(_, _, a, _) => [a]
    case Infix(_, _, l, r, _) => [l, r]
    case MemberExpression(o, p, _, _) => if IsStaticKey(n) then [o] else [o, p]
    case ConditionalExpression(t, c, a, _) => [t, c, a]
    case CallExpression(_, args, _) => args
  }

  /** Normalising two operands in turn: the first failure stops, and the effects add up. */
  lemma NormalizeTwo(g: ScopeTree, env: Env, a: Node, b: Node, cur: ScopeId)
    requires WellFormed(g) && cur < |g.scopes|
    ensures var x := Normalize(g, env, a, cur);
      var y := Normalize(g, env, b, cur);
      var all := NormalizeAll(g, env, [a, b], cur);
      && (x.result.Err? ==> all == ArgsOutcome(Err(x.result.error), x.trace))
      && (x.result.Ok? && y.result.Err? ==> all == ArgsOutcome(Err(y.result.error), x.trace + y.trace))
      && (x.result.Ok? && y.result.Ok? ==> all == ArgsOutcome(Ok([x.result.value, y.result.value]), x.trace + y.trace))
  {
    assert [a, b][1..] == [b];
    assert [b][1..] == [];
    var x := Normalize(g, env, a, cur);
    var y := Normalize(g, env, b, cur);
    var rest := NormalizeAll(g, env, [b], cur);
    assert NormalizeAll(g, env, [], cur) == ArgsOutcome(Ok([]), []);
    assert y.result.Err? ==> rest == ArgsOutcome(Err(y.result.error), y.trace);
    if y.result.Ok? {
      assert [y.result.value] + [] == [y.result.value];
      assert y.trace + [] == y.trace;
      assert rest == ArgsOutcome(Ok([y.result.value]), y.trace);
    }
    if x.result.Ok? && y.result.Ok? {
      assert [x.result.value] + [y.result.value] == [x.result.value, y.result.value];
    }
  }

  /** Normalising three operands in turn. */
  lemma NormalizeThree(g: ScopeTree, env: Env, a: Node, b: Node, c: Node, cur: ScopeId)
    requires WellFormed(g) && cur < |g.scopes|
    ensures var x := Normalize(g, env, a, cur);
      var y := Normalize(g, env, b, cur);
      var z := Normalize(g, env, c, cur);
      var all := NormalizeAll(g, env, [a, b, c], cur);
      && (x.result.Err? ==> all == ArgsOutcome(Err(x.result.error), x.trace))
      && (x.result.Ok? && y.result.Err? ==> all == ArgsOutcome(Err(y.result.error), x.trace + y.trace))
      && (x.result.Ok? && y.result.Ok? && z.result.Err? ==> all == ArgsOutcome(Err(z.result.error), x.trace + y.trace + z.trace))
      && (x.result.Ok? && y.result.Ok? && z.result.Ok? ==>
            all == ArgsOutcome(Ok([x.result.value, y.result.value, z.result.value]), x.trace + y.trace + z.trace))
  {
    assert [a, b, c][1..] == [b, c];
    NormalizeTwo(g, env, b, c, cur);
    var x := Normalize(g, env, a, cur);
    var y := Normalize(g, env, b, cur);
    var z := Normalize(g, env, c, cur);
    assert x.trace + (y.trace + z.trace) == x.trace + y.trace + z.trace;
    if x.result.Ok? && y.result.Ok? && z.result.Ok? {
      assert [x.result.value] + [y.result.value, z.result.value] == [x.result.value, y.result.value, z.result.value];
    }
  }

  /**
    An unresolved target. `if`, `while`, `do-while` and `for` resolve their
    keyword first, so they fail as unresolved with no effect whatever their
    test would do. Every other kind normalises its operands first: an operand
    failure is the node's failure, and only when they all succeed does the
    node fail as unresolved, after their effects. (A declarator resolves its
    own name before anything else.)
  */
  lemma {:induction false} UnresolvedTargetFails(g: ScopeTree, env: Env, n: Node, cur: ScopeId)
    requires WellFormed(g) && cur < |g.scopes| && env.typeScope(cur).Some?
    requires IsCallShaped(n) && !n.NewExpression? && (n.CallExpression? ==> n.callee.Identifier?)
    requires env.lookup(TargetLookupName(n), TargetLookupLoc(n), cur).None?
    ensures n.TestStatement? || n.ForStatement? ==>
      Normalize(g, env, n, cur) == Outcome(Err(Unresolved(TargetLookupName(n), n.loc)), [])
    ensures !n.TestStatement? && !n.ForStatement? && (n.VariableDeclarator? ==> env.lookup(n.idName, n.idLoc, cur).Some?) ==>
      var operands := NormalizeAll(g, env, OperandsBeforeLookup(n), cur);
      && (operands.result.Err? ==> Normalize(g, env, n, cur) == Outcome(Err(operands.result.error), operands.trace))
      && (operands.result.Ok? ==>
            Normalize(g, env, n, cur) == Outcome(Err(Unresolved(TargetLookupName(n), TargetLookupLoc(n))), operands.trace))
  {
    var ops := if n.TestStatement? || n.ForStatement? then [] else OperandsBeforeLookup(n);
    match n {
      case TestStatement(_, _, _) =>
      case ForStatement(_, _, _) =>
      case VariableDeclarator(_, _, init, _) =>
        assert ops == [init.value] && ops[1..] == [];
      case ThrowStatement(a, _) =>
        assert ops == [a] && ops[1..] == [];
      case Operand(_, _, a, _) =>
        assert ops == [a] && ops[1..] == [];
      case Infix(_, _, l, r, _) =>
        NormalizeTwo(g, env, l, r, cur);
      case MemberExpression(o, p, _, _) =>
        if IsStaticKey(n) {
          assert ops == [o] && ops[1..] == [];
        } else {
          NormalizeTwo(g, env, o, p, cur);
        }
      case ConditionalExpression(t, c, a, _) =>
        NormalizeThree(g, env, t, c, a, cur);
      case CallExpression(callee, arguments, _) =>
        var args := NormalizeAll(g, env, arguments, cur);
        assert NormalizeCallee(g, env, n, cur) == Outcome(Err(Unresolved(callee.name, callee.loc)), []);
        assert args.trace + [] == args.trace;
        assert Normalize(g, env, n, cur) == NormalizeCall(g, env, n, cur);
    }
  }

  /**
    `new` whose constructor unification fails passes the unifier's failure on,
    after the callee's and the constructor arguments' effects and with no
    `new` record; likewise an unresolved `new` fails after the same effects.
  */
  lemma NewConstructorFailurePassesOn(g: ScopeTree, env: Env, n: Node, cur: ScopeId)
    requires WellFormed(g) && cur < |g.scopes| && env.typeScope(cur).Some? && n.NewExpression?
    requires Normalize(g, env, n.callee, cur).result.Ok?
    requires IsCallable(TypeOf(Normalize(g, env, n.callee, cur).result.value))
    requires NormalizeAll(g, env, n.arguments, cur).result.Ok?
    ensures var calleeType := TypeOf(Normalize(g, env, n.callee, cur).result.value);
      var args := NormalizeAll(g, env, n.arguments, cur);
      var effects := Normalize(g, env, n.callee, cur).trace + args.trace;
      && (env.unify(calleeType, args.result.value, None, None).Err? ==>
            Normalize(g, env, n, cur) == Outcome(Err(Unification(env.unify(calleeType, args.result.value, None, None).error)), effects))
      && (env.unify(calleeType, args.result.value, None, None).Ok? && env.lookup("new", n.loc, cur).None? ==>
            Normalize(g, env, n, cur) == Outcome(Err(Unresolved("new", n.loc)), effects))
  {
    var callee := Normalize(g, env, n.callee, cur);
    assert Normalize(g, env, n, cur) == NormalizeNew(g, env, n, cur);
    assert Constructed(g, env, n, cur, TypeOf(callee.result.value)).trace == NormalizeAll(g, env, n.arguments, cur).trace;
  }

  /**
    A scope defect that binds `if` to something that is not callable makes
    `if` fail with that type, recording nothing for it, wherever the `if`
    stands (inside a function or not).
  */
  lemma IfBoundToNonFunctionFails(g: ScopeTree, env: Env, n: Node, cur: ScopeId, b: Binding)
    requires WellFormed(g) && cur < |g.scopes| && env.typeScope(cur).Some?
    requires n.TestStatement? && n.testKind == IfStatement
    requires env.lookup("if", n.loc, cur) == Some(b) && !IsCallable(b.ty)
    requires Normalize(g, env, n.test, cur).result.Ok?
    ensures Normalize(g, env, n, cur) == Outcome(Err(NotCallable(Some(b.ty))), Normalize(g, env, n.test, cur).trace)
  {
  }

  /**
    `let x = 1 + 2;` in a function scope: two records in that scope's ledger,
    `+` with the two literals, then `=` with the binding of x and the sum.
  */
  lemma LetXEqualsOnePlusTwo(g: ScopeTree, env: Env, cur: ScopeId, ts: TypeScopeId,
                             x: Binding, plus: Binding, assign: Binding,
                             one: Type, two: Type, sum: Type, result: Type,
                             declLoc: Loc, idLoc: Loc, plusLoc: Loc, oneLoc: Loc, twoLoc: Loc)
    requires WellFormed(g) && cur < |g.scopes| && g.scopes[cur].isFunction
    requires env.typeScope(cur) == Some(ts)
    requires env.lookup("x", idLoc, cur) == Some(x)
    requires env.lookup("+", plusLoc, cur) == Some(plus) && IsCallable(plus.ty)
    requires env.lookup("=", declLoc, cur) == Some(assign) && IsCallable(assign.ty)
    requires env.infer(Other("NumericLiteral", oneLoc), ts, cur) == one
    requires env.infer(Other("NumericLiteral", twoLoc), ts, cur) == two
    requires env.unify(plus.ty, [TypeArg(one), TypeArg(two)], None, Some(plusLoc)) == Ok(sum)
    requires env.unify(assign.ty, [TypeArg(x.ty), TypeArg(sum)], None, Some(declLoc)) == Ok(result)
    ensures var decl := VariableDeclarator("x", idLoc,
              Some(Infix(BinaryExpression, "+", Other("NumericLiteral", oneLoc), Other("NumericLiteral", twoLoc), plusLoc)), declLoc);
      Normalize(g, env, decl, cur) == Outcome(Ok(TypeArg(result)), [
        Recorded(cur, CallMeta(plus, [TypeArg(one), TypeArg(two)], plusLoc, "+")),
        Recorded(cur, CallMeta(assign, [BindingArg(x), TypeArg(sum)], declLoc, "="))])
  {
    var one' := Other("NumericLiteral", oneLoc);
    var two' := Other("NumericLiteral", twoLoc);
    var sumNode := Infix(BinaryExpression, "+", one', two', plusLoc);
    assert LedgerScope(g, cur) == Some(cur);
    assert Normalize(g, env, one', cur) == Outcome(Ok(TypeArg(one)), []);
    assert Normalize(g, env, two', cur) == Outcome(Ok(TypeArg(two)), []);
    assert TypeArgs([TypeArg(one), TypeArg(two)]) == [TypeArg(one), TypeArg(two)];
    assert Normalize(g, env, sumNode, cur)
        == Outcome(Ok(TypeArg(sum)), [Recorded(cur, CallMeta(plus, [TypeArg(one), TypeArg(two)], plusLoc, "+"))]);
    assert TypeArgs([BindingArg(x), TypeArg(sum)]) == [TypeArg(x.ty), TypeArg(sum)];
  }
}
