/** The structural model the Java writer renders: a top-level type
    declaration, its method declarations, their statements and expressions.
    The model is built before rendering and never changed by it. */
module JavaModel {

  datatype Option<T> = None | Some(value: T)

  /** An annotation on a declaration. How it is rendered is the business of
      the parent writer's annotation helper, so the writer sees it as opaque. */
  type Annotation = string

  /** A declared modifier. Which ones are allowed on a method and in what
      order they are printed is decided by the parent writer's modifier
      helper. */
  type Modifier = string

  /** A top-level class: its simple name and the qualified name of the
      class it extends, if any. */
  datatype TypeDecl = TypeDecl(name: string, superclass: Option<string>)

  /** A method parameter: qualified type name and parameter name. */
  datatype Param = Param(paramType: string, name: string)

  /** Expressions: a method invocation on a type, with pre-rendered argument
      strings, or any other kind of expression, which the writer does not
      recognise. */
  datatype Expr =
    | Invocation(target: string, name: string, args: seq<string>)
    | OtherExpr

  /** Statements: an expression statement, a return statement, or any other
      kind of statement, which the writer does not recognise. */
  datatype Stmt =
    | ExprStmt(expr: Expr)
    | ReturnStmt(expr: Expr)
    | OtherStmt

  datatype MethodDecl = MethodDecl(
    annotations: seq<Annotation>,
    modifiers: set<Modifier>,
    returnType: string,
    name: string,
    params: seq<Param>,
    statements: seq<Stmt>)
}
