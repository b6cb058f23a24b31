/** The Java source writer class: each method appends to the indenting
    writer it is given, in the order the steps are specified in module
    JavaWriter. */
module JavaSource {
  import opened Text
  import opened JavaModel
  import opened Indenting
  import opened JavaWriter
  import opened JavaWriterProperties

  class JavaSourceCodeWriter {
    const helpers: Helpers

    constructor (helpers: Helpers)
      ensures this.helpers == helpers
    {
      this.helpers := helpers;
    }

    /** Performs the steps a parent helper produces. */
    method WriteHelperOutput(writer: IndentingWriter, ops: seq<SinkOp>)
      requires writer.Valid()
      modifies writer
      ensures writer.Valid()
      ensures writer.State() == old(writer.State()).Apply(ops)
    {
      ghost var start := writer.State();
      for i := 0 to |ops|
        invariant writer.Valid()
        invariant writer.State() == start.Apply(ops[..i])
      {
        assert ops[..i + 1][..i] == ops[..i];
        match ops[i] {
          case Write(t) => writer.Print(t);
          case EndLine => writer.NewLine();
        }
      }
      assert ops[..|ops|] == ops;
    }

    method WriteTopTypeDeclaration(writer: IndentingWriter, t: TypeDecl)
      requires writer.Valid()
      modifies writer
      ensures writer.Valid()
      ensures writer.State() == TopTypeDeclaration(helpers, old(writer.State()), t)
      ensures writer.level == old(writer.level) && writer.atLineStart
      ensures t.superclass.None? ==>
        writer.lines == old(writer.lines)
          + [Line(old(writer.State().IndentOf()), old(writer.current) + "class " + t.name + " {"), Line(0, "")]
      ensures t.superclass.Some? ==>
        writer.lines == old(writer.lines)
          + [Line(old(writer.State().IndentOf()), old(writer.current) + "class " + t.name + " extends "
                  + helpers.unqualifiedName(t.superclass.value) + " {"), Line(0, "")]
    {
      ghost var before := writer.State();
      TopTypeDeclarationLines(helpers, before, t);
      writer.Print("class " + t.name);
      if t.superclass.Some? {
        writer.Print(" extends " + helpers.unqualifiedName(t.superclass.value));
      }
      writer.Println(" {");
      writer.NewLine();
    }

    method WriteMethodDeclaration(writer: IndentingWriter, m: MethodDecl)
      requires writer.Valid()
      modifies writer
      ensures writer.Valid()
      ensures writer.State() == MethodDeclaration(helpers, old(writer.State()), m)
      ensures writer.level == old(writer.level) && writer.atLineStart
      ensures old(writer.atLineStart) ==>
        var b := old(writer.State()).Apply(helpers.annotationOutput(m.annotations))
                                    .Apply(helpers.methodModifierOutput(m.modifiers));
        && old(writer.lines) <= b.lines
        && writer.lines == b.lines + [Line(old(writer.level), b.current + SignatureText(helpers, m))]
                           + BodyLines(helpers, m.statements, old(writer.level) + 1)
                           + [Line(old(writer.level), "}"), Line(0, "")]
      ensures writer.State().Emitted()
           == old(writer.State().Emitted())
              + OpsText(helpers.annotationOutput(m.annotations)) + OpsText(helpers.methodModifierOutput(m.modifiers))
              + SignatureText(helpers, m) + "\n" + BodyText(helpers, m.statements) + "}\n" + "\n"
    {
      ghost var before := writer.State();
      WriteHelperOutput(writer, helpers.annotationOutput(m.annotations));
      WriteHelperOutput(writer, helpers.methodModifierOutput(m.modifiers));
      WriteSignature(writer, m);
      writer.Indent();
      WriteStatements(writer, m.statements);
      writer.Outdent();
      writer.Println("}");
      writer.NewLine();
      MethodDeclarationShape(helpers, before, m);
    }

    /** Return type, name and parameter list, up to the opening brace. */
    method WriteSignature(writer: IndentingWriter, m: MethodDecl)
      requires writer.Valid()
      modifies writer
      ensures writer.Valid()
      ensures writer.State() == Signature(helpers, old(writer.State()), m)
    {
      writer.Print(helpers.unqualifiedName(m.returnType) + " " + m.name + "(");
      var parameters := m.params;
      if parameters != [] {
        writer.Print(Join(ParameterTexts(helpers, parameters), ListSeparator));
      }
      writer.Println(") {");
    }

    /** The block run inside the indented scope: one line per statement. */
    method WriteStatements(writer: IndentingWriter, statements: seq<Stmt>)
      requires writer.Valid()
      modifies writer
      ensures writer.Valid()
      ensures writer.State() == Statements(helpers, old(writer.State()), statements)
    {
      ghost var bodyStart := writer.State();
      for i := 0 to |statements|
        invariant writer.Valid()
        invariant writer.State() == Statements(helpers, bodyStart, statements[..i])
      {
        assert statements[..i + 1][..i] == statements[..i];
        var statement := statements[i];
        match statement {
          case ExprStmt(e) =>
            WriteExpression(writer, e);
          case ReturnStmt(e) =>
            writer.Print("return ");
            WriteExpression(writer, e);
          case OtherStmt =>
        }
        writer.Println(";");
      }
      assert statements[..|statements|] == statements;
    }

    method WriteExpression(writer: IndentingWriter, e: Expr)
      requires writer.Valid()
      modifies writer
      ensures writer.Valid()
      ensures writer.State() == Expression(helpers, old(writer.State()), e)
      ensures writer.lines == old(writer.lines) && writer.level == old(writer.level)
      ensures writer.current == old(writer.current) + ExpressionText(helpers, e)
      ensures e.OtherExpr? ==> writer.State() == old(writer.State())
    {
      if e.Invocation? {
        WriteMethodInvocation(writer, e);
      }
    }

    method WriteMethodInvocation(writer: IndentingWriter, e: Expr)
      requires writer.Valid()
      requires e.Invocation?
      modifies writer
      ensures writer.Valid()
      ensures writer.State() == MethodInvocation(helpers, old(writer.State()), e)
      ensures writer.lines == old(writer.lines) && writer.level == old(writer.level)
      ensures writer.current == old(writer.current) + InvocationText(helpers, e)
    {
      writer.Print(helpers.unqualifiedName(e.target) + "." + e.name + "("
        + Join(e.args, ListSeparator) + ")");
    }
  }
}
