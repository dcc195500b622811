/**
  The syntax-tree nodes the call normaliser dispatches on, with only the
  fields it reads. Kinds that the normaliser treats alike share one
  constructor and are told apart by a kind tag.
*/
module Ast {
  import opened Wrappers
  import opened Types

  /** Statements that take one test expression and desugar to a call of their keyword. */
  datatype TestKind = IfStatement | WhileStatement | DoWhileStatement

  function Keyword(k: TestKind): string
  {
    match k
    case IfStatement => "if"
    case WhileStatement => "while"
    case DoWhileStatement => "do-while"
  }

  /** Nodes that are resolved under their anonymous key. */
  datatype AnonymousKind = FunctionExpression | ArrowFunctionExpression | ClassDeclaration

  /** Nodes with one operand. A return statement has no operator: it carries "". */
  datatype OperandKind = ReturnStatement | UnaryExpression | UpdateExpression

  /** Nodes with a left and a right operand and an operator token. */
  datatype InfixKind = BinaryExpression | LogicalExpression | AssignmentExpression

  datatype Node =
    | TestStatement(testKind: TestKind, test: Node, loc: Loc)
    | ForStatement(forTest: Option<Node>, bodyKey: string, loc: Loc)   // bodyKey: the name the body's scope is registered under
    | Anonymous(anonymousKind: AnonymousKind, loc: Loc)
    | Identifier(name: string, loc: Loc)
    | VariableDeclarator(idName: string, idLoc: Loc, init: Option<Node>, loc: Loc)
    | ExpressionStatement(expression: Node)
    | ThrowStatement(argument: Node, loc: Loc)
    | Operand(operandKind: OperandKind, operator: string, argument: Node, loc: Loc)
    | Infix(infixKind: InfixKind, operator: string, left: Node, right: Node, loc: Loc)
    | MemberExpression(obj: Node, property: Node, computed: bool, loc: Loc)
    | ConditionalExpression(test: Node, consequent: Node, alternate: Node, loc: Loc)
    | CallExpression(callee: Node, arguments: seq<Node>, loc: Loc)
    | NewExpression(callee: Node, arguments: seq<Node>, loc: Loc)
    | Other(kind: string, loc: Loc)                                    // every kind left to the leaf inferencer

  /** A measure that every sub-node is strictly below; it bounds the recursion. */
  function Size(n: Node): nat
  {
    match n
    case TestStatement(_, test, _) => 1 + Size(test)
    case ForStatement(test, _, _) => 1 + (match test case None => 0 case Some(t) => Size(t))
    case Anonymous(_, _) => 1
    case Identifier(_, _) => 1
    case VariableDeclarator(_, _, init, _) => 1 + (match init case None => 0 case Some(i) => Size(i))
    case ExpressionStatement(e) => 1 + Size(e)
    case ThrowStatement(a, _) => 1 + Size(a)
    case Operand(_, _, a, _) => 1 + Size(a)
    case Infix(_, _, l, r, _) => 1 + Size(l) + Size(r)
    case MemberExpression(o, p, _, _) => 1 + Size(o) + Size(p)
    case ConditionalExpression(t, c, a, _) => 1 + Size(t) + Size(c) + Size(a)
    case CallExpression(c, args, _) => 1 + Size(c) + SizeList(args)
    case NewExpression(c, args, _) => 1 + Size(c) + SizeList(args)
    case Other(_, _) => 1
  }

  function SizeList(ns: seq<Node>): nat
  {
    if |ns| == 0 then 0 else 1 + Size(ns[0]) + SizeList(ns[1..])
  }

  /**
    The nodes that desugar to a call and leave one record in a ledger when
    they succeed: everything except references, expression statements, the
    leaf kinds and a declarator without an initialiser.
  */
  predicate IsCallShaped(n: Node)
  {
    match n
    case Anonymous(_, _) => false
    case Identifier(_, _) => false
    case ExpressionStatement(_) => false
    case Other(_, _) => false
    case VariableDeclarator(_, _, init, _) => init.Some?
    case _ => true
  }
}
