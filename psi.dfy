/** The parts of IntelliJ's program structure interface (PSI) that the stream
    folding builder reads, abstracted into plain values. Tree enumeration,
    method resolution and type erasure are done by the host; their results
    appear here as fields. All offsets are character offsets into the
    document. */
module Psi {

  datatype Option<+T> = None | Some(value: T)

  /** What resolveMethod() yields for a call: the method's name, the number
      of its declared parameters, and the canonical text of its erased
      return type (None when the method has no return type, as for a
      constructor). */
  datatype MethodInfo = MethodInfo(name: string, parameterCount: nat, returnType: Option<string>)

  /** A qualifier expression (the receiver in `Collectors.toList()`): its
      source text and its text range [start, end). */
  datatype Qualifier = Qualifier(text: string, start: nat, end: nat)

  /** An argument expression. Only whether it is itself a method call, and
      that call's qualifier (if any), matter to the builder. */
  datatype Arg =
    | CallArg(qualifier: Option<Qualifier>)
    | OtherArg

  /** A method call expression `q.name(args)`.
      - resolved: the result of resolveMethod(), None when resolution fails;
      - qualifierType: canonical text of the erased type of the qualifier
        expression, None when there is no qualifier or it has no type;
      - nameStart, nameEnd: range of the reference-name element;
      - callEnd: end offset of the whole call expression;
      - argListStart, argListEnd: range of the argument list, from its `(`
        through its `)`;
      - args: the argument expressions, in order. */
  datatype Call = Call(
    resolved: Option<MethodInfo>,
    qualifierType: Option<string>,
    nameStart: nat,
    nameEnd: nat,
    callEnd: nat,
    argListStart: nat,
    argListEnd: nat,
    args: seq<Arg>)

  /** The shape a parsed call `q.name(arg, ...)` has in the document: a dot
      precedes the name, the argument list follows the name and ends the
      call and holds at least its two parentheses, and the qualifier of an
      argument call lies inside the argument list, after its `(` and with
      its dot before the closing `)`. */
  predicate WellLaidOut(c: Call)
  {
    && 1 <= c.nameStart <= c.nameEnd <= c.argListStart
    && c.argListStart + 2 <= c.argListEnd <= c.callEnd
    && forall i :: 0 <= i < |c.args| ==>
         match c.args[i]
         case CallArg(Some(q)) => c.argListStart + 1 <= q.start <= q.end < c.argListEnd - 1
         case _ => true
  }
}
