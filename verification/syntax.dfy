/** The abstract syntax the discovery layer consumes.

    The Java parser (StaticJavaParser and its node hierarchy) is a foreign
    library; this module keeps only what test discovery reads from it: the
    top-level children of a compilation unit, and for a class or interface
    declaration its name and its own methods with their visibility and the
    simple names of their annotations.
 */
module Syntax {
  import opened Wrappers

  /** A java.nio.file.Path: whether it is rooted, and its name elements. */
  datatype Path = Path(absolute: bool, names: seq<string>)

  /** A method declaration. `annotations` holds simple names: `@org.junit.jupiter.api.Test`
      is recorded as "Test", as the parser's annotation lookup compares identifiers. */
  datatype Method = Method(name: string, isPrivate: bool, annotations: set<string>)

  /** A top-level child of a compilation unit: a class or interface declaration, or
      anything else (package declaration, import, enum, record, annotation type). */
  datatype Node =
    | ClassDecl(name: string, methods: seq<Method>)
    | Other

  type CompilationUnit = seq<Node>

  /** The two ways a parse can fail: the file or stream cannot be read, or the
      text is not valid Java. */
  datatype ParseError = IoFailure | ParseProblem(problems: seq<string>)

  /** What the parser reads: a file named by a path, or an already opened stream. */
  datatype Source = File(path: Path) | Stream(bytes: seq<bv8>)

  /** The foreign parser, as an uninterpreted total function of its input. */
  type Parser = Source -> Result<CompilationUnit, ParseError>

  /** The exceptions the core lets escape.
      - IllegalState: a parse failure wrapped with the path of the class
        ("Failed to parse Java class by path ...").
      - Rethrown: the parse cell's unchecked failure, not wrapped in an
        IllegalState; an I/O failure leaves the cell as an unchecked I/O
        exception, a parse problem as itself.
      - NullPointer: toString() called on a null file name. */
  datatype Exception =
    | IllegalState(path: Path, cause: ParseError)
    | Rethrown(cause: ParseError)
    | NullPointer

  /** Path.getFileName(): the last name element, or null (None) for a path with
      no name elements, such as the root "/". */
  function FileName(p: Path): (r: Option<string>)
    ensures r.None? <==> p.names == []
    ensures forall prefix: seq<string>, last: string :: p.names == prefix + [last] ==> r == Some(last)
  {
    if p.names == [] then None else Some(p.names[|p.names| - 1])
  }

  /** Number of methods in `ms` the filter keeps. */
  function PassCount(ms: seq<Method>, keep: Method -> bool): nat
  {
    if ms == [] then 0 else PassCount(ms[..|ms| - 1], keep) + (if keep(ms[|ms| - 1]) then 1 else 0)
  }
}
