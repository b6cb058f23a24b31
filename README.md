# Java source writer of Spring Initializr, modelled in Dafny

This project models the writer that renders a small structural model of a
Java compilation unit into Java source lines. The writer is
`JavaSourceCodeWriter` in initializr-generator. It produces:

- the top-level class header, with an optional `extends` clause;
- method declarations: annotations, modifiers, then the signature with its
  parameter list;
- a body of expression and return statements, one indent level deeper;
- method-invocation expressions.

The writer works by appending to a mutable indenting writer. The model keeps
that form. `Indenting.IndentingWriter` is a class whose fields (finished
lines, line in progress, indent level) are updated by `Print`, `Println`,
`NewLine`, `Indent` and `Outdent`. `JavaSource.JavaSourceCodeWriter` is a
class whose methods call them in the same order as the Java code.

Each write method has a specification function on the sink's value
(`Indenting.Sink`), in module `JavaWriter`. Its contract says that the new
writer state equals that function of the old one. Module
`JavaWriterProperties` proves what those functions produce:

- the lines and their indent levels;
- the written text as a stream, which fixes the order of the pieces;
- the ", " join read back into its elements.

Files:

- `model.dfy`: the structural model (`TypeDecl`, `MethodDecl`, `Param`,
  `Stmt`, `Expr`).
- `text.dfy`: `Join` (as `String.join` and `Collectors.joining`) and its
  inverse `SplitList`.
- `indenting.dfy`: the sink, as a value and as a class.
- `writer.dfy`: the parent-class helpers and the specification functions.
- `properties.dfy`: the lemmas.
- `source_writer.dfy`: the writer class.

Some things come from the parent class `JavaCodeWriter`, whose code is not
part of this model: `getUnqualifiedName`, `writeAnnotations`,
`writeModifiers` and `METHOD_MODIFIERS`. They are fields of
`JavaWriter.Helpers`:

- name shortening is an arbitrary `string -> string`;
- the annotation and method-modifier helpers are arbitrary functions from
  the declaration's annotations or modifiers to a sequence of sink steps
  (write text, end line).

The sink class `IndentingWriter` is not part of this model's source files
either. It is modelled on how the writer uses it:

- a line's indent level is fixed by the first write on that line;
- ending a line on which nothing was written gives an empty line with no
  indentation;
- `indented` raises the level for its block and then restores it.

The model follows the code as written, which does not validate its input
and does not close the class block:

- `writeTopTypeDeclaration` opens the class block but does not close it.
- Unrecognised statement kinds still produce a line `;`.
- Unrecognised expression kinds produce no text.
- Nothing is validated: empty names and duplicate parameter names are
  rendered as given.
- Modifier order and annotation layout are whatever the parent's helpers
  output. This code does not put them in a canonical order.

## Model

| member | source | states |
|---|---|---|
| Text.Join | initializr-generator/src/main/java/io/spring/initializr/generator/language/java/JavaSourceCodeWriter.java:56-58 | joining no strings gives ""; joining n ≥ 1 strings gives their total length plus n − 1 separators |
| Text.JoinEnds | initializr-generator/src/main/java/io/spring/initializr/generator/language/java/JavaSourceCodeWriter.java:56-58 | a non-empty join starts with the first element and ends with the last, so there is no leading or trailing separator |
| Text.SplitFromCommaFree | initializr-generator/src/main/java/io/spring/initializr/generator/language/java/JavaSourceCodeWriter.java:56-58 | reading a comma-free stretch during the split only extends the current piece |
| Text.SplitJoin | initializr-generator/src/main/java/io/spring/initializr/generator/language/java/JavaSourceCodeWriter.java:56-58 | splitting a ", "-joined non-empty list of comma-free strings at ", " gives the list back |
| Indenting.IndentingWriter.Print | initializr-generator/src/main/java/io/spring/initializr/generator/language/java/JavaSourceCodeWriter.java:42-44 | appends the text to the line in progress; the first write on a line fixes its level at the current one |
| Indenting.IndentingWriter.NewLine | initializr-generator/src/main/java/io/spring/initializr/generator/language/java/JavaSourceCodeWriter.java:47 | ends the line in progress; a line with nothing written on it is empty at level 0 |
| Indenting.IndentingWriter.Println | initializr-generator/src/main/java/io/spring/initializr/generator/language/java/JavaSourceCodeWriter.java:46 | print the text, then end the line |
| Indenting.IndentingWriter.Indent | initializr-generator/src/main/java/io/spring/initializr/generator/language/java/JavaSourceCodeWriter.java:61 | entering the indented block raises the level by one |
| Indenting.IndentingWriter.Outdent | initializr-generator/src/main/java/io/spring/initializr/generator/language/java/JavaSourceCodeWriter.java:73 | leaving the indented block lowers the level by one |
| Indenting.ApplyPreserves | initializr-generator/src/main/java/io/spring/initializr/generator/language/java/JavaSourceCodeWriter.java:51-52 | helper output keeps the level, keeps the finished lines as a prefix and keeps the line in progress aligned with the level |
| Indenting.ApplyEmitted | initializr-generator/src/main/java/io/spring/initializr/generator/language/java/JavaSourceCodeWriter.java:51-52 | helper output adds exactly its own text to what was written |
| Indenting.PrintEmitted | initializr-generator/src/main/java/io/spring/initializr/generator/language/java/JavaSourceCodeWriter.java:42 | print adds exactly its text |
| Indenting.NewLineEmitted | initializr-generator/src/main/java/io/spring/initializr/generator/language/java/JavaSourceCodeWriter.java:47 | ending a line adds exactly one line break |
| JavaWriter.Statements | initializr-generator/src/main/java/io/spring/initializr/generator/language/java/JavaSourceCodeWriter.java:62-72 | the statement loop keeps the sink's level and validity |
| JavaWriterProperties.TopTypeDeclarationLines | initializr-generator/src/main/java/io/spring/initializr/generator/language/java/JavaSourceCodeWriter.java:41-47 | the header completes the line in progress with "class " + name, then " extends " + shortened superclass exactly when one is present, then " {"; it is followed by one empty line; the level is unchanged |
| JavaWriterProperties.ExpressionTextEnd | initializr-generator/src/main/java/io/spring/initializr/generator/language/java/JavaSourceCodeWriter.java:78-87 | an expression contributes no text (unrecognised kind) or text ending in ")" |
| JavaWriterProperties.StatementTextEndsWithOneSemicolon | initializr-generator/src/main/java/io/spring/initializr/generator/language/java/JavaSourceCodeWriter.java:63-71 | every statement line ends with ";" and not with ";;" |
| JavaWriterProperties.StatementLine | initializr-generator/src/main/java/io/spring/initializr/generator/language/java/JavaSourceCodeWriter.java:63-72 | a statement written at line start occupies exactly one line at the current level: the expression text plus ";" for an expression statement, "return " + expression text + ";" for a return, ";" alone for an unrecognised kind |
| JavaWriterProperties.StatementsLines | initializr-generator/src/main/java/io/spring/initializr/generator/language/java/JavaSourceCodeWriter.java:62-72 | the loop appends exactly one line per statement, in model order, all at the loop's level |
| JavaWriterProperties.ExpressionEmitted | initializr-generator/src/main/java/io/spring/initializr/generator/language/java/JavaSourceCodeWriter.java:78-82 | writing an expression adds its text, or nothing for an unrecognised kind |
| JavaWriterProperties.StatementEmitted | initializr-generator/src/main/java/io/spring/initializr/generator/language/java/JavaSourceCodeWriter.java:63-72 | a statement adds its line text and one line break |
| JavaWriterProperties.StatementsEmitted | initializr-generator/src/main/java/io/spring/initializr/generator/language/java/JavaSourceCodeWriter.java:62-72 | the loop adds the statements' lines in model order |
| JavaWriterProperties.SignatureLine | initializr-generator/src/main/java/io/spring/initializr/generator/language/java/JavaSourceCodeWriter.java:53-60 | the signature completes the line in progress with shortened return type, " ", the name, "(", the ", "-joined parameters and ") {"; the empty-parameter branch gives the same text |
| JavaWriterProperties.SignatureEmitted | initializr-generator/src/main/java/io/spring/initializr/generator/language/java/JavaSourceCodeWriter.java:53-60 | the signature adds its text and one line break |
| JavaWriterProperties.ClosingLines | initializr-generator/src/main/java/io/spring/initializr/generator/language/java/JavaSourceCodeWriter.java:74-75 | "}" on its own line at the current level, then one empty line |
| JavaWriterProperties.ClosingEmitted | initializr-generator/src/main/java/io/spring/initializr/generator/language/java/JavaSourceCodeWriter.java:74-75 | the closing adds "}", a line break and an empty line |
| JavaWriterProperties.MethodDeclarationLines | initializr-generator/src/main/java/io/spring/initializr/generator/language/java/JavaSourceCodeWriter.java:50-76 | from line start: annotation output, then modifier output, then the signature completing the line at the sink's level; one line per statement one level deeper; "}" at the signature's level and one empty line; the level afterwards equals the level before |
| JavaWriterProperties.MethodDeclarationText | initializr-generator/src/main/java/io/spring/initializr/generator/language/java/JavaSourceCodeWriter.java:51-75 | as a text stream: annotation output, then modifier output, then signature, body lines and closing, in that order |
| JavaWriterProperties.MethodDeclarationShape | initializr-generator/src/main/java/io/spring/initializr/generator/language/java/JavaSourceCodeWriter.java:50-76 | from any state the method declaration restores the level and ends its last line; combines the line and text views |
| JavaWriterProperties.EmptyParameterList | initializr-generator/src/main/java/io/spring/initializr/generator/language/java/JavaSourceCodeWriter.java:53-60 | with no parameters the signature ends in "() {" |
| JavaWriterProperties.ParameterListRoundTrip | initializr-generator/src/main/java/io/spring/initializr/generator/language/java/JavaSourceCodeWriter.java:54-58 | with comma-free types and names, the rendered parameter list splits back into the parameter texts |
| JavaWriterProperties.InvocationArguments | initializr-generator/src/main/java/io/spring/initializr/generator/language/java/JavaSourceCodeWriter.java:84-87 | an invocation is the shortened target, ".", the name and "(", then the ", "-joined arguments copied verbatim, then ")"; no arguments give "()"; comma-free arguments read back unchanged |
| JavaWriterProperties.TwoParametersExample | initializr-generator/src/main/java/io/spring/initializr/generator/language/java/JavaSourceCodeWriter.java:56-58 | parameters (int, a) and (java.lang.String, b) render as "int a, String b" |
| JavaWriterProperties.ReturnEmptyListExample | initializr-generator/src/main/java/io/spring/initializr/generator/language/java/JavaSourceCodeWriter.java:67-70 | returning Collections.emptyList() gives the line "return Collections.emptyList();" |
| JavaSource.JavaSourceCodeWriter.constructor | initializr-generator/src/main/java/io/spring/initializr/generator/language/java/JavaSourceCodeWriter.java:37-39 | keeps the parent's helpers |
| JavaSource.JavaSourceCodeWriter.WriteHelperOutput | initializr-generator/src/main/java/io/spring/initializr/generator/language/java/JavaSourceCodeWriter.java:51-52 | performs a parent helper's sink steps in order |
| JavaSource.JavaSourceCodeWriter.WriteTopTypeDeclaration | initializr-generator/src/main/java/io/spring/initializr/generator/language/java/JavaSourceCodeWriter.java:41-48 | new state is the header step on the old one: lines as TopTypeDeclarationLines, level unchanged, at line start |
| JavaSource.JavaSourceCodeWriter.WriteMethodDeclaration | initializr-generator/src/main/java/io/spring/initializr/generator/language/java/JavaSourceCodeWriter.java:50-76 | new state is the method step on the old one: level restored, lines as MethodDeclarationLines when started at line start, text as MethodDeclarationText |
| JavaSource.JavaSourceCodeWriter.WriteSignature | initializr-generator/src/main/java/io/spring/initializr/generator/language/java/JavaSourceCodeWriter.java:53-60 | new state is the signature step on the old one |
| JavaSource.JavaSourceCodeWriter.WriteStatements | initializr-generator/src/main/java/io/spring/initializr/generator/language/java/JavaSourceCodeWriter.java:61-73 | the for loop reaches the statement loop's state over all statements, proved by loop invariant |
| JavaSource.JavaSourceCodeWriter.WriteExpression | initializr-generator/src/main/java/io/spring/initializr/generator/language/java/JavaSourceCodeWriter.java:78-82 | appends the expression text to the line in progress; an unrecognised kind leaves the sink unchanged |
| JavaSource.JavaSourceCodeWriter.WriteMethodInvocation | initializr-generator/src/main/java/io/spring/initializr/generator/language/java/JavaSourceCodeWriter.java:84-87 | appends the invocation text to the line in progress; lines and level unchanged |

## Left out

- The parent class `JavaCodeWriter` is not part of this model. That covers
  `getUnqualifiedName`, `writeAnnotations`, `writeModifiers` and
  `METHOD_MODIFIERS`. They are arbitrary functions, so the model does not
  claim a canonical modifier order. It also does not claim that an
  unresolvable name falls back to its qualified form.
- `IndentingWriterFactory` and the indent string are configuration. Each
  line carries an integer indent level instead.
- `indented(Runnable)` cannot take a method as an argument in Dafny. It is
  modelled as `Indent` and `Outdent` around the statement loop. No
  exceptions are modelled, so restoring the level on an abnormal exit is not
  modelled.
- Persisting the rendered text, and the loop that calls these methods for
  each member, are outside the modelled code.
- The model's builders and accessors (`JavaTypeDeclaration`,
  `JavaMethodDeclaration`, `Parameter`) are plain datatypes here.
- The constructor's `IndentingWriterFactory` argument is replaced by the
  parent helpers it stands for.
- Annotations and modifiers have opaque string types, because how they are
  rendered is the parent's business.
- Text.SplitJoin: the round trip is stated only for elements without a
  comma. A type such as `Map<String, Integer>` contains ", " and does not
  split back.
- JavaWriterProperties.ParameterListRoundTrip: same restriction as
  Text.SplitJoin.
- JavaWriterProperties.MethodDeclarationLines: the lines are stated for a
  sink at the start of a line, which is where a method declaration begins.
  The level restoration and the text-stream view are proved for any state
  (MethodDeclarationShape).
- Texts are assumed to contain no line break. Names, argument strings and
  helper output are copied into one `Line` as given, so a "\n" inside one of
  them stays inside that `Line`. The real sink passes such a line break
  straight through. The output then has one more physical line, and that
  line is not indented. "One line per statement, at the body's level"
  (StatementsLines, MethodDeclarationLines) describes the physical output
  only for texts without line breaks.
- Characters are Dafny `char`s. Java's UTF-16 encoding and line separator
  are not modelled; a line break is "\n" in the text view.
