/** What the Java writer's output looks like: the class header, the
    signature line, one line per statement one level deeper, the closing brace
    back at the signature's level, and the order in which the pieces of a
    method declaration are written. */
module JavaWriterProperties {
  import opened Text
  import opened JavaModel
  import opened Indenting
  import opened JavaWriter

  /** The class header line is "class " and the name, then " extends " and
      the shortened superclass exactly when there is one, then " {"; one
      empty line follows. */
  lemma TopTypeDeclarationLines(h: Helpers, w: Sink, t: TypeDecl)
    requires w.Valid()
    ensures var r := TopTypeDeclaration(h, w, t);
      && r.Valid() && r.atLineStart && r.level == w.level
      && (t.superclass.None? ==>
            r.lines == w.lines + [Line(w.IndentOf(), w.current + "class " + t.name + " {"), Line(0, "")])
      && (t.superclass.Some? ==>
            r.lines == w.lines + [Line(w.IndentOf(), w.current + "class " + t.name + " extends "
                                       + h.unqualifiedName(t.superclass.value) + " {"), Line(0, "")])
  {
    var w1 := w.Print("class " + t.name);
    var w2 := if t.superclass.Some? then w1.Print(" extends " + h.unqualifiedName(t.superclass.value)) else w1;
    var w3 := w2.Print(" {");
    if t.superclass.Some? {
      var x := h.unqualifiedName(t.superclass.value);
      assert w3.current == w.current + "class " + t.name + " extends " + x + " {";
    } else {
      assert w3.current == w.current + "class " + t.name + " {";
    }
    assert w3.IndentOf() == w.IndentOf();
    var l1 := Line(w.IndentOf(), w3.current);
    assert w3.NewLine().NewLine().lines == w.lines + [l1] + [Line(0, "")];
    assert w.lines + [l1] + [Line(0, "")] == w.lines + [l1, Line(0, "")];
  }

  /** An expression contributes either nothing or text that ends with ")". */
  lemma ExpressionTextEnd(h: Helpers, e: Expr)
    ensures var t := ExpressionText(h, e); t == "" || t[|t| - 1] == ')'
  {
  }

  /** Every statement line ends with exactly one ";". */
  lemma StatementTextEndsWithOneSemicolon(h: Helpers, s: Stmt)
    ensures var t := StatementText(h, s);
      |t| >= 1 && t[|t| - 1] == ';' && (|t| >= 2 ==> t[|t| - 2] != ';')
  {
    match s
    case ExprStmt(e) =>
      ExpressionTextEnd(h, e);
    case ReturnStmt(e) =>
      ExpressionTextEnd(h, e);
      var x := ExpressionText(h, e);
      var t := "return " + x + ";";
      assert x == "" ==> t[|t| - 2] == ' ';
      assert x != "" ==> t[|t| - 2] == x[|x| - 1];
    case OtherStmt =>
  }

  /** A statement written at the start of a line occupies exactly one line at
      the current level: the expression text for an expression statement,
      "return " and the expression text for a return statement, nothing for
      an unrecognised kind, always followed by ";". */
  lemma StatementLine(h: Helpers, w: Sink, s: Stmt)
    requires w.Valid() && w.atLineStart
    ensures var r := Statement(h, w, s);
      && r.Valid() && r.atLineStart && r.level == w.level
      && r.lines == w.lines + [Line(w.level, StatementText(h, s))]
    ensures s.ExprStmt? ==> StatementText(h, s) == ExpressionText(h, s.expr) + ";"
    ensures s.ReturnStmt? ==> StatementText(h, s) == "return " + ExpressionText(h, s.expr) + ";"
    ensures s.OtherStmt? ==> StatementText(h, s) == ";"
  {
    match s
    case ExprStmt(e) =>
      var x := ExpressionText(h, e);
      assert Expression(h, w, e).current == x;
      assert Expression(h, w, e).Print(";").current == x + ";";
    case ReturnStmt(e) =>
      var x := ExpressionText(h, e);
      assert Expression(h, w.Print("return "), e).current == "return " + x;
      assert Expression(h, w.Print("return "), e).Print(";").current == "return " + x + ";";
    case OtherStmt =>
      assert w.Print(";").current == ";";
  }

  /** The statement loop writes exactly one line per statement, in model
      order, all at the level the loop started at. */
  lemma {:induction false} StatementsLines(h: Helpers, w: Sink, ss: seq<Stmt>)
    requires w.Valid() && w.atLineStart
    ensures var r := Statements(h, w, ss);
      r.Valid() && r.atLineStart && r.level == w.level && r.lines == w.lines + BodyLines(h, ss, w.level)
    decreases |ss|
  {
    if ss == [] {
      assert BodyLines(h, ss, w.level) == [];
    } else {
      var prefix := ss[..|ss| - 1];
      StatementsLines(h, w, prefix);
      var p := Statements(h, w, prefix);
      StatementLine(h, p, ss[|ss| - 1]);
      assert BodyLines(h, ss, w.level)
          == BodyLines(h, prefix, w.level) + [Line(w.level, StatementText(h, ss[|ss| - 1]))];
    }
  }

  lemma ExpressionEmitted(h: Helpers, w: Sink, e: Expr)
    ensures Expression(h, w, e).Emitted() == w.Emitted() + ExpressionText(h, e)
  {
    if e.Invocation? {
      PrintEmitted(w, InvocationText(h, e));
    } else {
      assert w.Emitted() + "" == w.Emitted();
    }
  }

  lemma StatementEmitted(h: Helpers, w: Sink, s: Stmt)
    ensures Statement(h, w, s).Emitted() == w.Emitted() + StatementText(h, s) + "\n"
  {
    match s
    case ExprStmt(e) =>
      var p := Expression(h, w, e);
      ExpressionEmitted(h, w, e);
      PrintEmitted(p, ";");
      NewLineEmitted(p.Print(";"));
    case ReturnStmt(e) =>
      var q := w.Print("return ");
      var p := Expression(h, q, e);
      PrintEmitted(w, "return ");
      ExpressionEmitted(h, q, e);
      PrintEmitted(p, ";");
      NewLineEmitted(p.Print(";"));
      assert w.Emitted() + "return " + ExpressionText(h, e) + ";" == w.Emitted() + StatementText(h, s);
    case OtherStmt =>
      PrintEmitted(w, ";");
      NewLineEmitted(w.Print(";"));
  }

  /** The statement loop adds the statements' text, in model order. */
  lemma {:induction false} StatementsEmitted(h: Helpers, w: Sink, ss: seq<Stmt>)
    ensures Statements(h, w, ss).Emitted() == w.Emitted() + BodyText(h, ss)
    decreases |ss|
  {
    if ss == [] {
      assert w.Emitted() + "" == w.Emitted();
    } else {
      var prefix := ss[..|ss| - 1];
      StatementsEmitted(h, w, prefix);
      StatementEmitted(h, Statements(h, w, prefix), ss[|ss| - 1]);
    }
  }

  /** The signature: shortened return type, a space, the name, "(", the
      parameters as shortened type, space and name joined by ", ", then ") {". */
  lemma SignatureLine(h: Helpers, w: Sink, m: MethodDecl)
    requires w.Valid()
    ensures var r := Signature(h, w, m);
      && r.Valid() && r.atLineStart && r.level == w.level
      && r.lines == w.lines + [Line(w.IndentOf(), w.current + SignatureText(h, m))]
  {
    var head := h.unqualifiedName(m.returnType) + " " + m.name + "(";
    var ps := Join(ParameterTexts(h, m.params), ListSeparator);
    if m.params == [] {
      assert ps == "";
      assert w.current + head + ") {" == w.current + SignatureText(h, m);
    } else {
      assert w.current + head + ps + ") {" == w.current + SignatureText(h, m);
    }
  }

  /** A method declaration written at the start of a line: the annotation
      output, then the modifier output, then the signature completing the
      line in progress, at the sink's level; one line per statement one level
      deeper; "}" back at the signature's level and one empty line. The
      sink's level afterwards is its level before. */
  lemma MethodDeclarationLines(h: Helpers, w: Sink, m: MethodDecl)
    requires w.Valid() && w.atLineStart
    ensures var a := w.Apply(h.annotationOutput(m.annotations));
      var b := a.Apply(h.methodModifierOutput(m.modifiers));
      var r := MethodDeclaration(h, w, m);
      && w.lines <= a.lines <= b.lines
      && r.lines == b.lines + [Line(w.level, b.current + SignatureText(h, m))]
                    + BodyLines(h, m.statements, w.level + 1)
                    + [Line(w.level, "}"), Line(0, "")]
      && r.Valid() && r.atLineStart && r.level == w.level
  {
    var a := w.Apply(h.annotationOutput(m.annotations));
    var b := a.Apply(h.methodModifierOutput(m.modifiers));
    ApplyPreserves(w, h.annotationOutput(m.annotations));
    ApplyPreserves(a, h.methodModifierOutput(m.modifiers));
    assert b.IndentOf() == w.level;
    var s := Signature(h, b, m);
    SignatureLine(h, b, m);
    StatementsLines(h, s.Indent(), m.statements);
    var body := Statements(h, s.Indent(), m.statements);
    ClosingLines(body.Outdent());
  }

  /** "}" on a line of its own at the current level, then an empty line. */
  lemma ClosingLines(w: Sink)
    requires w.Valid() && w.atLineStart
    ensures var r := w.Println("}").NewLine();
      r.Valid() && r.atLineStart && r.level == w.level && r.lines == w.lines + [Line(w.level, "}"), Line(0, "")]
  {
    assert w.Print("}").current == "}";
    assert w.Println("}").NewLine().lines == w.lines + [Line(w.level, "}")] + [Line(0, "")];
  }

  lemma SignatureEmitted(h: Helpers, w: Sink, m: MethodDecl)
    ensures Signature(h, w, m).Emitted() == w.Emitted() + SignatureText(h, m) + "\n"
  {
    var head := h.unqualifiedName(m.returnType) + " " + m.name + "(";
    var s1 := w.Print(head);
    var s2 := if m.params != [] then s1.Print(Join(ParameterTexts(h, m.params), ListSeparator)) else s1;
    var s3 := s2.Print(") {");
    NewLineEmitted(s3);
    assert s3.lines == w.lines;
    if m.params == [] {
      assert s3.current == w.current + head + ") {";
    } else {
      assert s3.current == w.current + head + Join(ParameterTexts(h, m.params), ListSeparator) + ") {";
    }
    assert s3.current == w.current + SignatureText(h, m);
    assert s3.Emitted() == LinesText(w.lines) + (w.current + SignatureText(h, m));
  }

  lemma ClosingEmitted(w: Sink)
    ensures w.Println("}").NewLine().Emitted() == w.Emitted() + "}\n" + "\n"
  {
    NewLineEmitted(w.Print("}"));
    NewLineEmitted(w.Println("}"));
  }

  /** Read as a stream of characters, a method declaration is the annotation
      output, then the modifier output, then the signature, the body and the
      closing brace, in that order. */
  lemma MethodDeclarationText(h: Helpers, w: Sink, m: MethodDecl)
    ensures MethodDeclaration(h, w, m).Emitted()
         == w.Emitted() + OpsText(h.annotationOutput(m.annotations)) + OpsText(h.methodModifierOutput(m.modifiers))
            + SignatureText(h, m) + "\n" + BodyText(h, m.statements) + "}\n" + "\n"
  {
    var a := w.Apply(h.annotationOutput(m.annotations));
    var b := a.Apply(h.methodModifierOutput(m.modifiers));
    ApplyEmitted(w, h.annotationOutput(m.annotations));
    ApplyEmitted(a, h.methodModifierOutput(m.modifiers));
    var s := Signature(h, b, m);
    SignatureEmitted(h, b, m);
    StatementsEmitted(h, s.Indent(), m.statements);
    var body := Statements(h, s.Indent(), m.statements);
    ClosingEmitted(body.Outdent());
  }

  /** A method declaration keeps the sink's level and ends its last line;
      written at the start of a line, its lines are as MethodDeclarationLines
      states; its text is as MethodDeclarationText states. */
  lemma MethodDeclarationShape(h: Helpers, w: Sink, m: MethodDecl)
    requires w.Valid()
    ensures var r := MethodDeclaration(h, w, m);
      r.Valid() && r.level == w.level && r.atLineStart
    ensures w.atLineStart ==>
      var b := w.Apply(h.annotationOutput(m.annotations)).Apply(h.methodModifierOutput(m.modifiers));
      && w.lines <= b.lines
      && MethodDeclaration(h, w, m).lines
           == b.lines + [Line(w.level, b.current + SignatureText(h, m))]
              + BodyLines(h, m.statements, w.level + 1) + [Line(w.level, "}"), Line(0, "")]
    ensures MethodDeclaration(h, w, m).Emitted()
         == w.Emitted() + OpsText(h.annotationOutput(m.annotations)) + OpsText(h.methodModifierOutput(m.modifiers))
            + SignatureText(h, m) + "\n" + BodyText(h, m.statements) + "}\n" + "\n"
  {
    MethodDeclarationText(h, w, m);
    if w.atLineStart {
      MethodDeclarationLines(h, w, m);
    }
    var a := w.Apply(h.annotationOutput(m.annotations));
    var b := a.Apply(h.methodModifierOutput(m.modifiers));
    ApplyPreserves(w, h.annotationOutput(m.annotations));
    ApplyPreserves(a, h.methodModifierOutput(m.modifiers));
    SignatureLine(h, b, m);
    var body := Statements(h, Signature(h, b, m).Indent(), m.statements);
    assert body.Outdent().Println("}").NewLine().atLineStart;
  }

  /** With no parameters the signature ends in "() {". */
  lemma EmptyParameterList(h: Helpers, m: MethodDecl)
    requires m.params == []
    ensures SignatureText(h, m) == h.unqualifiedName(m.returnType) + " " + m.name + "() {"
  {
  }

  /** The parameter list reads back as the list of parameter texts when no
      type or name contains a comma. */
  lemma ParameterListRoundTrip(h: Helpers, ps: seq<Param>)
    requires ps != []
    requires forall i :: 0 <= i < |ps| ==> CommaFree(h.unqualifiedName(ps[i].paramType)) && CommaFree(ps[i].name)
    ensures SplitList(Join(ParameterTexts(h, ps), ListSeparator)) == ParameterTexts(h, ps)
  {
    var texts := ParameterTexts(h, ps);
    forall i | 0 <= i < |texts|
      ensures CommaFree(texts[i])
    {
      assert texts[i] == h.unqualifiedName(ps[i].paramType) + " " + ps[i].name;
    }
    SplitJoin(texts);
  }

  /** An invocation is the shortened target, ".", the name and "(", then the
      argument strings joined by ", " and copied as given, then ")". With no
      arguments it ends in "()"; comma-free arguments read back unchanged. */
  lemma InvocationArguments(h: Helpers, e: Expr)
    requires e.Invocation?
    ensures var t := InvocationText(h, e);
      var head := h.unqualifiedName(e.target) + "." + e.name + "(";
      && head <= t && |t| > |head| && t[|t| - 1] == ')'
      && t[|head|..|t| - 1] == Join(e.args, ListSeparator)
      && (e.args == [] ==> t == head + ")")
      && (e.args != [] && (forall i :: 0 <= i < |e.args| ==> CommaFree(e.args[i])) ==>
            SplitList(t[|head|..|t| - 1]) == e.args)
  {
    if e.args != [] && (forall i :: 0 <= i < |e.args| ==> CommaFree(e.args[i])) {
      SplitJoin(e.args);
    }
  }

  /** Two parameters (int, "a") and (java.lang.String, "b") render as
      "int a, String b". */
  lemma TwoParametersExample(h: Helpers)
    requires h.unqualifiedName("int") == "int"
    requires h.unqualifiedName("java.lang.String") == "String"
    ensures Join(ParameterTexts(h, [Param("int", "a"), Param("java.lang.String", "b")]), ListSeparator)
         == "int a, String b"
  {
  }

  /** Returning Collections.emptyList() gives the body line
      "return Collections.emptyList();". */
  lemma ReturnEmptyListExample(h: Helpers, w: Sink)
    requires w.Valid() && w.atLineStart
    requires h.unqualifiedName("java.util.Collections") == "Collections"
    ensures Statement(h, w, ReturnStmt(Invocation("java.util.Collections", "emptyList", []))).lines
         == w.lines + [Line(w.level, "return Collections.emptyList();")]
  {
    var e := Invocation("java.util.Collections", "emptyList", []);
    ReturnEmptyListText(h);
    StatementLine(h, w, ReturnStmt(e));
  }

  lemma ReturnEmptyListText(h: Helpers)
    requires h.unqualifiedName("java.util.Collections") == "Collections"
    ensures StatementText(h, ReturnStmt(Invocation("java.util.Collections", "emptyList", [])))
         == "return Collections.emptyList();"
  {
    var e := Invocation("java.util.Collections", "emptyList", []);
    assert Join(e.args, ListSeparator) == "";
    var x := InvocationText(h, e);
    assert x == "Collections" + "." + "emptyList" + "(" + ")";
    assert x == "Collections.emptyList()";
    assert StatementText(h, ReturnStmt(e)) == "return " + x + ";";
  }
}
