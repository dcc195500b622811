/**
  The normaliser as the source runs it: a recursive procedure over the nodes
  that pushes call records on the ledgers of the scopes it finds and adds to
  their throwable accumulators as it goes. The scopes live in one arena,
  `TypeGraph`, whose `calls` and `throwables` fields hold one list per scope.

  Every method here is proved to return what the specification in module
  Call returns, and to leave every ledger extended by exactly the records
  that specification's trace assigns to that scope, in trace order.
*/
module Graph {
  import opened Wrappers
  import opened Types
  import opened Scopes
  import opened Ast
  import opened Call

  /** Running the common tail after some effects is running it alone, after them. */
  lemma FinishAfter(g: ScopeTree, env: Env, cur: ScopeId, target: Arg, targetName: string,
                    args: seq<Arg>, genericArgs: Option<seq<Arg>>, loc: Loc, pre: seq<Effect>)
    requires WellFormed(g) && cur < |g.scopes|
    ensures Finish(g, env, cur, target, targetName, args, genericArgs, loc, pre).result
         == Finish(g, env, cur, target, targetName, args, genericArgs, loc, []).result
    ensures Finish(g, env, cur, target, targetName, args, genericArgs, loc, pre).trace
         == pre + Finish(g, env, cur, target, targetName, args, genericArgs, loc, []).trace
  {
  }

  class TypeGraph {
    const tree: ScopeTree
    var calls: seq<seq<CallMeta>>      // the call ledger of every scope
    var throwables: seq<seq<Arg>>      // the throwable accumulator of every scope

    ghost predicate Valid()
      reads this
    {
      WellFormed(tree) && |calls| == |tree.scopes| && |throwables| == |tree.scopes|
    }

    ghost function State(): Ledgers
      reads this
    {
      Ledgers(calls, throwables)
    }

    constructor (tree: ScopeTree)
      requires WellFormed(tree)
      ensures Valid() && this.tree == tree
      ensures forall s :: 0 <= s < |tree.scopes| ==> calls[s] == [] && throwables[s] == []
    {
      this.tree := tree;
      calls := seq(|tree.scopes|, _ => []);
      throwables := seq(|tree.scopes|, _ => []);
    }

    /** `callsScope.calls.push(callMeta)`. */
    method Push(s: ScopeId, meta: CallMeta)
      requires Valid() && s < |tree.scopes|
      modifies this
      ensures Valid()
      ensures State() == Apply(old(State()), [Recorded(s, meta)])
    {
      calls := calls[s := calls[s] + [meta]];
      forall t | 0 <= t < |calls| ensures calls[t] == old(calls)[t] + CallsFor([Recorded(s, meta)], t) {
        assert [Recorded(s, meta)][1..] == [];
      }
      forall t | 0 <= t < |throwables| ensures throwables[t] == old(throwables)[t] + ThrownFor([Recorded(s, meta)], t) {
        assert [Recorded(s, meta)][1..] == [];
      }
    }

    /** `addToThrowable(value, scope)`: the value joins the scope's throwables. */
    method AddToThrowable(value: Arg, s: ScopeId)
      requires Valid() && s < |tree.scopes|
      modifies this
      ensures Valid()
      ensures State() == Apply(old(State()), [Thrown(s, value)])
    {
      throwables := throwables[s := throwables[s] + [value]];
      forall t | 0 <= t < |calls| ensures calls[t] == old(calls)[t] + CallsFor([Thrown(s, value)], t) {
        assert [Thrown(s, value)][1..] == [];
      }
      forall t | 0 <= t < |throwables| ensures throwables[t] == old(throwables)[t] + ThrownFor([Thrown(s, value)], t) {
        assert [Thrown(s, value)][1..] == [];
      }
    }

    /** The common tail: check the target, unify, pick the ledger, push. */
    method Complete(env: Env, cur: ScopeId, target: Arg, targetName: string,
                    args: seq<Arg>, genericArgs: Option<seq<Arg>>, loc: Loc) returns (r: Result<Arg, Error>)
      requires Valid() && cur < |tree.scopes|
      modifies this
      ensures Valid()
      ensures r == Finish(tree, env, cur, target, targetName, args, genericArgs, loc, []).result
      ensures State() == Apply(old(State()), Finish(tree, env, cur, target, targetName, args, genericArgs, loc, []).trace)
    {
      ApplyEmpty(State());
      if !(target.BindingArg? && IsCallable(target.b.ty)) {
        return Err(NotCallable(if target.BindingArg? then Some(target.b.ty) else None));
      }
      var invocationType := env.unify(target.b.ty, TypeArgs(args), genericArgs, Some(loc));
      if invocationType.Err? {
        return Err(Unification(invocationType.error));
      }
      var callsScope := LedgerScope(tree, cur);
      if callsScope.None? {
        return Err(NoLedgerScope);
      }
      var meta := CallMeta(target.b, args, loc, targetName);
      Push(callsScope.value, meta);
      assert [] + [Recorded(callsScope.value, meta)] == [Recorded(callsScope.value, meta)];
      r := Ok(TypeArg(invocationType.value));
    }

    /** addCallToTypeGraph(node, typeGraph, currentScope). */
    method AddCallToTypeGraph(env: Env, n: Node, cur: ScopeId) returns (r: Result<Arg, Error>)
      requires Valid() && cur < |tree.scopes|
      modifies this
      ensures Valid()
      ensures r == Normalize(tree, env, n, cur).result
      ensures State() == Apply(old(State()), Normalize(tree, env, n, cur).trace)
      decreases Size(n), 2
    {
      ApplyEmpty(State());
      var typeScope := env.typeScope(cur);
      if typeScope.None? {
        return Err(NotAScope);
      }
      match n {
        case TestStatement(_, _, _) => r := AddTestCall(env, n, cur);
        case ForStatement(_, _, _) => r := AddForCall(env, n, cur);
        case Anonymous(_, loc) => r := Reference(env, env.anonymousKey(n), loc, cur).result;
        case Identifier(name, loc) => r := Reference(env, name, loc, cur).result;
        case VariableDeclarator(_, _, _, _) => r := AddDeclarator(env, n, cur);
        case ExpressionStatement(e) => r := AddCallToTypeGraph(env, e, cur);
        case ThrowStatement(_, _) => r := AddThrowCall(env, n, cur);
        case Operand(_, _, _, _) => r := AddOperandCall(env, n, cur);
        case Infix(_, _, _, _, _) => r := AddInfixCall(env, n, cur);
        case MemberExpression(_, _, _, _) => r := AddMemberCall(env, n, cur);
        case ConditionalExpression(_, _, _, _) => r := AddConditionalCall(env, n, cur);
        case CallExpression(_, _, _) => r := AddCallExpression(env, n, cur);
        case NewExpression(_, _, _) => r := AddNewCall(env, n, cur);
        case Other(_, _) => r := Ok(TypeArg(env.infer(n, typeScope.value, cur)));
      }
    }

    /** `nodes.map(n => addCallToTypeGraph(n, typeGraph, currentScope))`. */
    method AddAll(env: Env, ns: seq<Node>, cur: ScopeId) returns (r: Result<seq<Arg>, Error>)
      requires Valid() && cur < |tree.scopes|
      modifies this
      ensures Valid()
      ensures r == NormalizeAll(tree, env, ns, cur).result
      ensures State() == Apply(old(State()), NormalizeAll(tree, env, ns, cur).trace)
      decreases SizeList(ns), 2
    {
      ApplyEmpty(State());
      if |ns| == 0 {
        return Ok([]);
      }
      var head := AddCallToTypeGraph(env, ns[0], cur);
      if head.Err? {
        return Err(head.error);
      }
      ghost var headTrace := Normalize(tree, env, ns[0], cur).trace;
      var tail := AddAll(env, ns[1..], cur);
      ApplyConcat(old(State()), headTrace, NormalizeAll(tree, env, ns[1..], cur).trace);
      if tail.Err? {
        return tail;
      }
      r := Ok([head.value] + tail.value);
    }

    method AddTestCall(env: Env, n: Node, cur: ScopeId) returns (r: Result<Arg, Error>)
      requires Valid() && cur < |tree.scopes| && n.TestStatement?
      modifies this
      ensures Valid()
      ensures r == NormalizeTest(tree, env, n, cur).result
      ensures State() == Apply(old(State()), NormalizeTest(tree, env, n, cur).trace)
      decreases Size(n), 1
    {
      ApplyEmpty(State());
      var target := Lookup(env, Keyword(n.testKind), n.loc, cur);
      if target.Err? {
        return Err(target.error);
      }
      var test := AddCallToTypeGraph(env, n.test, cur);
      if test.Err? {
        return test;
      }
      ghost var pre := Normalize(tree, env, n.test, cur).trace;
      r := Complete(env, cur, BindingArg(target.value), "", [test.value], None, n.loc);
      FinishAfter(tree, env, cur, BindingArg(target.value), "", [test.value], None, n.loc, pre);
      ApplyConcat(old(State()), pre, Finish(tree, env, cur, BindingArg(target.value), "", [test.value], None, n.loc, []).trace);
    }

    method AddForCall(env: Env, n: Node, cur: ScopeId) returns (r: Result<Arg, Error>)
      requires Valid() && cur < |tree.scopes| && n.ForStatement?
      modifies this
      ensures Valid()
      ensures r == NormalizeFor(tree, env, n, cur).result
      ensures State() == Apply(old(State()), NormalizeFor(tree, env, n, cur).trace)
      decreases Size(n), 1
    {
      ApplyEmpty(State());
      var target := Lookup(env, "for", n.loc, cur);
      if target.Err? {
        return Err(target.error);
      }
      var test: Result<Arg, Error>;
      ghost var pre: seq<Effect> := [];
      match n.forTest {
        case None =>
          test := Ok(TypeArg(Undefined));
        case Some(t) =>
          if n.bodyKey in tree.body {
            test := AddCallToTypeGraph(env, t, tree.body[n.bodyKey]);
            pre := Normalize(tree, env, t, tree.body[n.bodyKey]).trace;
          } else {
            test := Err(NoBodyScope(n.bodyKey));
          }
      }
      if test.Err? {
        return test;
      }
      var args := [TypeArg(Mixed), test.value, TypeArg(Mixed)];
      r := Complete(env, cur, BindingArg(target.value), "", args, None, n.loc);
      FinishAfter(tree, env, cur, BindingArg(target.value), "", args, None, n.loc, pre);
      ApplyConcat(old(State()), pre, Finish(tree, env, cur, BindingArg(target.value), "", args, None, n.loc, []).trace);
    }

    method AddDeclarator(env: Env, n: Node, cur: ScopeId) returns (r: Result<Arg, Error>)
      requires Valid() && cur < |tree.scopes| && n.VariableDeclarator?
      modifies this
      ensures Valid()
      ensures r == NormalizeDeclarator(tree, env, n, cur).result
      ensures State() == Apply(old(State()), NormalizeDeclarator(tree, env, n, cur).trace)
      decreases Size(n), 1
    {
      ApplyEmpty(State());
      var variable := Lookup(env, n.idName, n.idLoc, cur);
      if variable.Err? {
        return Err(variable.error);
      }
      if n.init.None? {
        return Ok(BindingArg(variable.value));
      }
      var init := AddCallToTypeGraph(env, n.init.value, cur);
      if init.Err? {
        return init;
      }
      ghost var pre := Normalize(tree, env, n.init.value, cur).trace;
      var target := Lookup(env, "=", n.loc, cur);
      if target.Err? {
        return Err(target.error);
      }
      var args := [BindingArg(variable.value), init.value];
      r := Complete(env, cur, BindingArg(target.value), "=", args, None, n.loc);
      FinishAfter(tree, env, cur, BindingArg(target.value), "=", args, None, n.loc, pre);
      ApplyConcat(old(State()), pre, Finish(tree, env, cur, BindingArg(target.value), "=", args, None, n.loc, []).trace);
    }

    method AddThrowCall(env: Env, n: Node, cur: ScopeId) returns (r: Result<Arg, Error>)
      requires Valid() && cur < |tree.scopes| && n.ThrowStatement?
      modifies this
      ensures Valid()
      ensures r == NormalizeThrow(tree, env, n, cur).result
      ensures State() == Apply(old(State()), NormalizeThrow(tree, env, n, cur).trace)
      decreases Size(n), 1
    {
      var thrown := AddCallToTypeGraph(env, n.argument, cur);
      if thrown.Err? {
        return thrown;
      }
      ghost var pre := Normalize(tree, env, n.argument, cur).trace;
      var target := Lookup(env, "throw", n.loc, cur);
      if target.Err? {
        return Err(target.error);
      }
      AddToThrowable(thrown.value, cur);
      ApplyConcat(old(State()), pre, [Thrown(cur, thrown.value)]);
      pre := pre + [Thrown(cur, thrown.value)];
      r := Complete(env, cur, BindingArg(target.value), "throw", [thrown.value], None, n.loc);
      FinishAfter(tree, env, cur, BindingArg(target.value), "throw", [thrown.value], None, n.loc, pre);
      ApplyConcat(old(State()), pre, Finish(tree, env, cur, BindingArg(target.value), "throw", [thrown.value], None, n.loc, []).trace);
    }

    method AddOperandCall(env: Env, n: Node, cur: ScopeId) returns (r: Result<Arg, Error>)
      requires Valid() && cur < |tree.scopes| && n.Operand?
      modifies this
      ensures Valid()
      ensures r == NormalizeOperand(tree, env, n, cur).result
      ensures State() == Apply(old(State()), NormalizeOperand(tree, env, n, cur).trace)
      decreases Size(n), 1
    {
      var arg := AddCallToTypeGraph(env, n.argument, cur);
      if arg.Err? {
        return arg;
      }
      ghost var pre := Normalize(tree, env, n.argument, cur).trace;
      var name := OperatorName(n.operator);
      var target := Lookup(env, name, n.loc, cur);
      if target.Err? {
        return Err(target.error);
      }
      r := Complete(env, cur, BindingArg(target.value), name, [arg.value], None, n.loc);
      FinishAfter(tree, env, cur, BindingArg(target.value), name, [arg.value], None, n.loc, pre);
      ApplyConcat(old(State()), pre, Finish(tree, env, cur, BindingArg(target.value), name, [arg.value], None, n.loc, []).trace);
    }

    method AddInfixCall(env: Env, n: Node, cur: ScopeId) returns (r: Result<Arg, Error>)
      requires Valid() && cur < |tree.scopes| && n.Infix?
      modifies this
      ensures Valid()
      ensures r == NormalizeInfix(tree, env, n, cur).result
      ensures State() == Apply(old(State()), NormalizeInfix(tree, env, n, cur).trace)
      decreases Size(n), 1
    {
      var left := AddCallToTypeGraph(env, n.left, cur);
      if left.Err? {
        return left;
      }
      ghost var leftTrace := Normalize(tree, env, n.left, cur).trace;
      var right := AddCallToTypeGraph(env, n.right, cur);
      ghost var pre := leftTrace + Normalize(tree, env, n.right, cur).trace;
      ApplyConcat(old(State()), leftTrace, Normalize(tree, env, n.right, cur).trace);
      if right.Err? {
        return right;
      }
      var target := Lookup(env, n.operator, n.loc, cur);
      if target.Err? {
        return Err(target.error);
      }
      var args := [left.value, right.value];
      r := Complete(env, cur, BindingArg(target.value), n.operator, args, None, n.loc);
      FinishAfter(tree, env, cur, BindingArg(target.value), n.operator, args, None, n.loc, pre);
      ApplyConcat(old(State()), pre, Finish(tree, env, cur, BindingArg(target.value), n.operator, args, None, n.loc, []).trace);
    }

    method AddMemberCall(env: Env, n: Node, cur: ScopeId) returns (r: Result<Arg, Error>)
      requires Valid() && cur < |tree.scopes| && n.MemberExpression?
      modifies this
      ensures Valid()
      ensures r == NormalizeMember(tree, env, n, cur).result
      ensures State() == Apply(old(State()), NormalizeMember(tree, env, n, cur).trace)
      decreases Size(n), 1
    {
      var obj := AddCallToTypeGraph(env, n.obj, cur);
      if obj.Err? {
        return obj;
      }
      ghost var objTrace := Normalize(tree, env, n.obj, cur).trace;
      var key: Result<Arg, Error>;
      ghost var keyTrace: seq<Effect> := [];
      if IsStaticKey(n) {
        key := Ok(TypeArg(Literal(n.property.name, StringType)));
        assert objTrace + keyTrace == objTrace;
      } else {
        key := AddCallToTypeGraph(env, n.property, cur);
        keyTrace := Normalize(tree, env, n.property, cur).trace;
        ApplyConcat(old(State()), objTrace, keyTrace);
      }
      ghost var pre := objTrace + keyTrace;
      if key.Err? {
        return key;
      }
      var target := Lookup(env, ".", n.loc, cur);
      if target.Err? {
        return Err(target.error);
      }
      var args := [obj.value, key.value];
      r := Complete(env, cur, BindingArg(target.value), ".", args, Some(TypeArgs(args)), n.loc);
      FinishAfter(tree, env, cur, BindingArg(target.value), ".", args, Some(TypeArgs(args)), n.loc, pre);
      ApplyConcat(old(State()), pre, Finish(tree, env, cur, BindingArg(target.value), ".", args, Some(TypeArgs(args)), n.loc, []).trace);
    }

    method AddConditionalCall(env: Env, n: Node, cur: ScopeId) returns (r: Result<Arg, Error>)
      requires Valid() && cur < |tree.scopes| && n.ConditionalExpression?
      modifies this
      ensures Valid()
      ensures r == NormalizeConditional(tree, env, n, cur).result
      ensures State() == Apply(old(State()), NormalizeConditional(tree, env, n, cur).trace)
      decreases Size(n), 1
    {
      var test := AddCallToTypeGraph(env, n.test, cur);
      if test.Err? {
        return test;
      }
      ghost var pre := Normalize(tree, env, n.test, cur).trace;
      var cons := AddCallToTypeGraph(env, n.consequent, cur);
      ApplyConcat(old(State()), pre, Normalize(tree, env, n.consequent, cur).trace);
      pre := pre + Normalize(tree, env, n.consequent, cur).trace;
      if cons.Err? {
        return cons;
      }
      var alt := AddCallToTypeGraph(env, n.alternate, cur);
      ApplyConcat(old(State()), pre, Normalize(tree, env, n.alternate, cur).trace);
      pre := pre + Normalize(tree, env, n.alternate, cur).trace;
      if alt.Err? {
        return alt;
      }
      var target := Lookup(env, "?:", n.loc, cur);
      if target.Err? {
        return Err(target.error);
      }
      var args := [test.value, cons.value, alt.value];
      r := Complete(env, cur, BindingArg(target.value), "?:", args, None, n.loc);
      FinishAfter(tree, env, cur, BindingArg(target.value), "?:", args, None, n.loc, pre);
      ApplyConcat(old(State()), pre, Finish(tree, env, cur, BindingArg(target.value), "?:", args, None, n.loc, []).trace);
    }

    method AddCallee(env: Env, n: Node, cur: ScopeId) returns (r: Result<Arg, Error>)
      requires Valid() && cur < |tree.scopes| && n.CallExpression?
      modifies this
      ensures Valid()
      ensures r == NormalizeCallee(tree, env, n, cur).result
      ensures State() == Apply(old(State()), NormalizeCallee(tree, env, n, cur).trace)
      decreases Size(n), 0
    {
      if n.callee.Identifier? {
        ApplyEmpty(State());
        r := Reference(env, n.callee.name, n.callee.loc, cur).result;
      } else {
        r := AddCallToTypeGraph(env, n.callee, cur);
      }
    }

    method AddCallExpression(env: Env, n: Node, cur: ScopeId) returns (r: Result<Arg, Error>)
      requires Valid() && cur < |tree.scopes| && n.CallExpression?
      modifies this
      ensures Valid()
      ensures r == NormalizeCall(tree, env, n, cur).result
      ensures State() == Apply(old(State()), NormalizeCall(tree, env, n, cur).trace)
      decreases Size(n), 1
    {
      var args := AddAll(env, n.arguments, cur);
      if args.Err? {
        return Err(args.error);
      }
      ghost var pre := NormalizeAll(tree, env, n.arguments, cur).trace;
      var callee := AddCallee(env, n, cur);
      ApplyConcat(old(State()), pre, NormalizeCallee(tree, env, n, cur).trace);
      pre := pre + NormalizeCallee(tree, env, n, cur).trace;
      if callee.Err? {
        return callee;
      }
      var target := callee.value;
      if target.BindingArg? && target.b.throwable.Some? {
        AddToThrowable(TypeArg(target.b.throwable.value), cur);
      } else {
        ApplyEmpty(State());
      }
      ApplyConcat(old(State()), pre, ThrowableOf(target, cur));
      pre := pre + ThrowableOf(target, cur);
      r := Complete(env, cur, target, "", args.value, None, n.loc);
      FinishAfter(tree, env, cur, target, "", args.value, None, n.loc, pre);
      ApplyConcat(old(State()), pre, Finish(tree, env, cur, target, "", args.value, None, n.loc, []).trace);
    }

    method AddConstructed(env: Env, n: Node, cur: ScopeId, calleeType: Type) returns (r: Result<Type, Error>)
      requires Valid() && cur < |tree.scopes| && n.NewExpression?
      modifies this
      ensures Valid()
      ensures r == Constructed(tree, env, n, cur, calleeType).result
      ensures State() == Apply(old(State()), Constructed(tree, env, n, cur, calleeType).trace)
      decreases Size(n), 0
    {
      if !IsCallable(calleeType) {
        ApplyEmpty(State());
        return Ok(calleeType);
      }
      var args := AddAll(env, n.arguments, cur);
      if args.Err? {
        return Err(args.error);
      }
      var potential := env.unify(calleeType, args.value, None, None);
      if potential.Err? {
        return Err(Unification(potential.error));
      }
      r := Ok(potential.value);
    }

    method AddNewCall(env: Env, n: Node, cur: ScopeId) returns (r: Result<Arg, Error>)
      requires Valid() && cur < |tree.scopes| && n.NewExpression?
      modifies this
      ensures Valid()
      ensures r == NormalizeNew(tree, env, n, cur).result
      ensures State() == Apply(old(State()), NormalizeNew(tree, env, n, cur).trace)
      decreases Size(n), 1
    {
      var callee := AddCallToTypeGraph(env, n.callee, cur);
      if callee.Err? {
        return callee;
      }
      ghost var pre := Normalize(tree, env, n.callee, cur).trace;
      var potential := AddConstructed(env, n, cur, TypeOf(callee.value));
      ApplyConcat(old(State()), pre, Constructed(tree, env, n, cur, TypeOf(callee.value)).trace);
      pre := pre + Constructed(tree, env, n, cur, TypeOf(callee.value)).trace;
      if potential.Err? {
        return Err(potential.error);
      }
      var target := Lookup(env, "new", n.loc, cur);
      if target.Err? {
        return Err(target.error);
      }
      var args := [TypeArg(NewArgument(potential.value))];
      r := Complete(env, cur, BindingArg(target.value), "new", args, None, n.loc);
      FinishAfter(tree, env, cur, BindingArg(target.value), "new", args, None, n.loc, pre);
      ApplyConcat(old(State()), pre, Finish(tree, env, cur, BindingArg(target.value), "new", args, None, n.loc, []).trace);
    }
  }
}
