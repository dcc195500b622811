/**
  The values the call normaliser handles: types, bindings (VariableInfo),
  the `Type | Binding` union it returns (CallableArguments) and the call
  records it leaves in scope ledgers (CallMeta).

  The type algebra itself is an external collaborator; its classes are
  replaced here by datatype tags, one per class the normaliser tests with
  `instanceof`.
*/
module Types {
  import opened Wrappers

  /** A source location, as carried by every node and call record. */
  datatype Loc = Loc(line: nat, column: nat)

  /** A key into the type graph's table of type scopes. */
  type TypeScopeId = nat

  datatype Type =
    | Named(name: string)                                   // a type found or created by name ("mixed", "string", ...)
    | Literal(name: string, base: Type)                     // a named type created with `isLiteralOf: base`
    | ObjectT(name: string, properties: seq<Property>)      // ObjectType
    | FunctionT(parameters: seq<Type>, returnType: Type)    // FunctionType
    | Generic(typeParameters: seq<string>, subordinate: Type) // GenericType over its subordinate type

  datatype Property = Property(key: string, ty: Type)

  /** A FunctionType, or a GenericType whose subordinate type is a FunctionType. */
  predicate IsCallable(t: Type)
  {
    t.FunctionT? || (t.Generic? && t.subordinate.FunctionT?)
  }

  /** VariableInfo: a resolved name with its type and what invoking it may throw. */
  datatype Binding = Binding(name: string, ty: Type, throwable: Option<Type>)

  /** CallableArguments: what the normaliser returns for a node. */
  datatype Arg = TypeArg(t: Type) | BindingArg(b: Binding)

  /** The type an argument stands for: the type itself, or the binding's type. */
  function TypeOf(a: Arg): Type
  {
    match a
    case TypeArg(t) => t
    case BindingArg(b) => b.ty
  }

  /** Every argument replaced by the type it stands for, as handed to the unifier. */
  function TypeArgs(args: seq<Arg>): (r: seq<Arg>)
    ensures |r| == |args|
    ensures forall i :: 0 <= i < |args| && args[i].TypeArg? ==> r[i] == args[i]
    ensures forall i :: 0 <= i < |args| && args[i].BindingArg? ==> r[i] == TypeArg(args[i].b.ty)
  {
    seq(|args|, i requires 0 <= i < |args| => TypeArg(TypeOf(args[i])))
  }

  /** What the unifier receives holds only types, and converting it again changes nothing. */
  lemma TypeArgsNormalForm(args: seq<Arg>)
    ensures forall i :: 0 <= i < |args| ==> TypeArgs(args)[i].TypeArg?
    ensures TypeArgs(TypeArgs(args)) == TypeArgs(args)
  {
  }

  /** CallMeta: one resolved call, as recorded in a function scope's ledger. */
  datatype CallMeta = CallMeta(target: Binding, arguments: seq<Arg>, loc: Loc, targetName: string)
}
