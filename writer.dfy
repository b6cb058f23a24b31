/** The Java source writer: renders a top-level class header, method
    declarations, their statements and method-invocation expressions into an
    indenting line sink.

    This module gives each step of the writer as a function on the sink's
    value (`TopTypeDeclaration`, `MethodDeclaration`, `Expression`,
    `MethodInvocation`); module JavaWriterProperties proves what their output
    looks like, and module JavaSource holds the writer class whose methods
    perform these steps on an IndentingWriter. */
module JavaWriter {
  import opened Text
  import opened JavaModel
  import opened Indenting

  /** What the writer takes from its parent class, whose code is not part of
      this model: name shortening for every type reference, and the output
      of the annotation and (method) modifier helpers as sink steps. */
  datatype Helpers = Helpers(
    unqualifiedName: string -> string,
    annotationOutput: seq<Annotation> -> seq<SinkOp>,
    methodModifierOutput: set<Modifier> -> seq<SinkOp>)

  /** A parameter as it appears in a signature: shortened type, a space,
      the name. */
  function ParameterText(h: Helpers, p: Param): string
  {
    h.unqualifiedName(p.paramType) + " " + p.name
  }

  function ParameterTexts(h: Helpers, ps: seq<Param>): seq<string>
  {
    seq(|ps|, i requires 0 <= i < |ps| => ParameterText(h, ps[i]))
  }

  /** The text of a method invocation: shortened target, ".", the name, and
      the argument strings in parentheses, copied as given. */
  function InvocationText(h: Helpers, e: Expr): string
    requires e.Invocation?
  {
    h.unqualifiedName(e.target) + "." + e.name + "(" + Join(e.args, ListSeparator) + ")"
  }

  /** The text an expression contributes: nothing for an unrecognised kind. */
  function ExpressionText(h: Helpers, e: Expr): string
  {
    match e
    case Invocation(_, _, _) => InvocationText(h, e)
    case OtherExpr => ""
  }

  /** The text of the line a statement occupies. */
  function StatementText(h: Helpers, s: Stmt): string
  {
    match s
    case ExprStmt(e) => ExpressionText(h, e) + ";"
    case ReturnStmt(e) => "return " + ExpressionText(h, e) + ";"
    case OtherStmt => ";"
  }

  /** The lines the statements `ss` occupy in a body at level `l`. */
  function BodyLines(h: Helpers, ss: seq<Stmt>, l: nat): seq<Line>
  {
    seq(|ss|, k requires 0 <= k < |ss| => Line(l, StatementText(h, ss[k])))
  }

  /** The text of a method body without indentation, one line per statement. */
  function BodyText(h: Helpers, ss: seq<Stmt>): string
    decreases |ss|
  {
    if ss == [] then "" else BodyText(h, ss[..|ss| - 1]) + StatementText(h, ss[|ss| - 1]) + "\n"
  }

  /** The method signature after annotations and modifiers. */
  function SignatureText(h: Helpers, m: MethodDecl): string
  {
    h.unqualifiedName(m.returnType) + " " + m.name + "(" + Join(ParameterTexts(h, m.params), ListSeparator) + ") {"
  }

  // ---- The writer's steps, as functions on the sink's value ----

  function TopTypeDeclaration(h: Helpers, w: Sink, t: TypeDecl): Sink
  {
    var w1 := w.Print("class " + t.name);
    var w2 := if t.superclass.Some? then w1.Print(" extends " + h.unqualifiedName(t.superclass.value)) else w1;
    w2.Println(" {").NewLine()
  }

  function MethodInvocation(h: Helpers, w: Sink, e: Expr): Sink
    requires e.Invocation?
  {
    w.Print(InvocationText(h, e))
  }

  function Expression(h: Helpers, w: Sink, e: Expr): Sink
  {
    if e.Invocation? then MethodInvocation(h, w, e) else w
  }

  /** One pass of the statement loop. */
  function Statement(h: Helpers, w: Sink, s: Stmt): Sink
  {
    match s
    case ExprStmt(e) => Expression(h, w, e).Println(";")
    case ReturnStmt(e) => Expression(h, w.Print("return "), e).Println(";")
    case OtherStmt => w.Println(";")
  }

  /** The statement loop over `ss`, in order. */
  function Statements(h: Helpers, w: Sink, ss: seq<Stmt>): (r: Sink)
    ensures r.level == w.level
    ensures w.Valid() ==> r.Valid()
    decreases |ss|
  {
    if ss == [] then w else Statement(h, Statements(h, w, ss[..|ss| - 1]), ss[|ss| - 1])
  }

  /** Return type, name and parameter list up to the opening brace. */
  function Signature(h: Helpers, w: Sink, m: MethodDecl): Sink
  {
    var w1 := w.Print(h.unqualifiedName(m.returnType) + " " + m.name + "(");
    var w2 := if m.params != [] then w1.Print(Join(ParameterTexts(h, m.params), ListSeparator)) else w1;
    w2.Println(") {")
  }

  function MethodDeclaration(h: Helpers, w: Sink, m: MethodDecl): Sink
  {
    var w1 := w.Apply(h.annotationOutput(m.annotations)).Apply(h.methodModifierOutput(m.modifiers));
    var body := Statements(h, Signature(h, w1, m).Indent(), m.statements);
    body.Outdent().Println("}").NewLine()
  }
}
