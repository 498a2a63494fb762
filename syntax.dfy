/**
 * The parts of the compiler's symbol and syntax model that the WinForms DPI analyzer looks at,
 * as plain values. The host supplies them; the analyzer only reads them.
 */
module Syntax {
  import opened Wrappers

  /** The values of the C# type `int`. */
  type Int32 = i: int | -0x8000_0000 <= i < 0x8000_0000

  /** The value a literal token carries, classified by its runtime type. */
  datatype LiteralValue =
    | IntValue(i: Int32)      // `12`: an `int` literal
    | FloatValue(f: real)     // `6F`: a `float` literal
    | DoubleValue(d: real)    // `6.0`, `6D`: a `double` literal
    | OtherValue              // strings, chars, `true`, `null`, `12M`, `12L`, `12U`, and unsuffixed
                              // integer literals too large for `int` (their value is a uint, long or ulong)

  /** Expressions, down to the detail the analyzer distinguishes. */
  datatype Expr =
    | MemberAccess(name: string)                    // `receiver.Name`: only the simple name is read
    | IdentifierName(name: string)                  // a bare `Name`
    | ObjectCreation(typeName: string, arguments: Option<seq<Expr>>)  // `new T(...)`; None for `new T { ... }`
    | ImplicitObjectCreation(targetTypedArguments: seq<Expr>)         // target-typed `new(...)`
    | Literal(literal: LiteralValue)
    | Assignment(left: Expr, right: Expr)           // every assignment operator (`=`, `+=`, ...)
    | OtherExpr

  /** An expression that is an assignment. */
  type AssignmentExpr = e: Expr | e.Assignment? witness Assignment(OtherExpr, OtherExpr)

  datatype Statement =
    | ExpressionStatement(expression: Expr)
    | Block(statements: seq<Statement>)
    | OtherStatement

  /** The syntax node found at a member's declaration location. */
  datatype SyntaxNode =
    | MethodDeclaration(body: Option<seq<Statement>>)  // None: a bodiless or expression-bodied method
    | OtherNode

  /** A declaration location of a member: in metadata (no source tree) or in a source tree. */
  datatype MemberLocation = MetadataLocation | SourceLocation(node: SyntaxNode)

  datatype Member = Member(name: string, locations: seq<MemberLocation>)

  /** A namespace with its chain of containing namespaces, ending at the global namespace. */
  datatype Namespace = GlobalNamespace | NamespaceDecl(name: string, containing: Namespace)

  /** The immediate base type of an analyzed type. */
  datatype BaseType = BaseType(name: string, isSystemObject: bool, containing: Namespace)

  /** A source location a diagnostic can be anchored at. */
  datatype Location = Location(path: string, start: nat, length: nat)

  /** A named type symbol: its immediate base (None when it has none), its members, its declaration locations. */
  datatype NamedType = NamedType(baseType: Option<BaseType>, members: seq<Member>, locations: seq<Location>)

  /** A reported diagnostic: rule id, anchor location, and the message argument if the rule has one. */
  datatype Diagnostic = Diagnostic(ruleId: string, location: Location, argument: Option<string>)
}
