/** Test-case discovery over one compilation unit (JavaTestCode).

    `All` parses the file named by a path, keeps the top-level class and
    interface declarations, keeps their non-private methods marked `@Test` or
    `@ParameterizedTest`, and emits one `Case` per kept method, in declaration
    order, as a list (duplicates stay). A parse failure becomes one
    IllegalState exception carrying the path.
 */
module JavaTestCode {
  import opened Wrappers
  import opened Syntax

  /** One discovered test case (JavaParserCase): class name, method name, path. */
  datatype Case = Case(className: string, methodName: string, path: Path)

  const TestMarker: string := "Test"
  const ParameterizedMarker: string := "ParameterizedTest"

  /** The recognised marker annotations, as a set. */
  const Markers: set<string> := {TestMarker, ParameterizedMarker}

  /** isTestClass: a top-level node contributes cases exactly when it is a class
      or interface declaration. */
  function IsTestClass(n: Node): (r: bool)
    ensures r <==> exists name, ms :: n == ClassDecl(name, ms)
  {
    n.ClassDecl?
  }

  /** isTest: a method is a test exactly when it is not private and its
      annotations meet the marker set. */
  function IsTest(m: Method): (r: bool)
    ensures r <==> !m.isPrivate && m.annotations * Markers != {}
  {
    var marked := TestMarker in m.annotations || ParameterizedMarker in m.annotations;
    assert marked ==>
      (if TestMarker in m.annotations then TestMarker else ParameterizedMarker) in m.annotations * Markers;
    !m.isPrivate && marked
  }

  /** A private method is never a test, whatever its annotations. */
  lemma PrivateNeverTest(name: string, annotations: set<string>)
    ensures !IsTest(Method(name, true, annotations))
  {
  }

  /** Number of qualifying methods over the class declarations of a unit. */
  function UnitTestCount(nodes: seq<Node>): nat
  {
    if nodes == [] then 0
    else
      UnitTestCount(nodes[..|nodes| - 1])
      + (if IsTestClass(nodes[|nodes| - 1]) then PassCount(nodes[|nodes| - 1].methods, IsTest) else 0)
  }

  /** The cases one class declaration contributes (testCases): one per test method,
      in declaration order, each tagged with the class name and the path. */
  function MethodCases(className: string, ms: seq<Method>, path: Path): (r: seq<Case>)
    ensures |r| == PassCount(ms, IsTest)
    ensures forall c :: c in r ==> c.className == className && c.path == path
    ensures forall c :: c in r ==> exists m :: m in ms && IsTest(m) && c.methodName == m.name
    ensures forall m :: m in ms && IsTest(m) ==> Case(className, m.name, path) in r
  {
    if ms == [] then []
    else
      var init := ms[..|ms| - 1];
      var m := ms[|ms| - 1];
      assert forall x :: x in init ==> x in ms;
      MethodCases(className, init, path)
      + (if IsTest(m) then [Case(className, m.name, path)] else [])
  }

  /** The cases of a whole unit: the class declarations' cases, concatenated in
      node order. Nodes that are not class declarations contribute nothing. */
  function UnitCases(nodes: seq<Node>, path: Path): (r: seq<Case>)
    ensures |r| == UnitTestCount(nodes)
    ensures forall c :: c in r ==> c.path == path
    ensures forall c :: c in r ==>
      exists n :: n in nodes && IsTestClass(n) && c.className == n.name
        && exists m :: m in n.methods && IsTest(m) && c.methodName == m.name
    ensures forall n, m :: n in nodes && IsTestClass(n) && m in n.methods && IsTest(m) ==>
      Case(n.name, m.name, path) in r
  {
    if nodes == [] then []
    else
      var init := nodes[..|nodes| - 1];
      var n := nodes[|nodes| - 1];
      assert forall x :: x in init ==> x in nodes;
      UnitCases(init, path)
      + (match n
         case ClassDecl(name, ms) => MethodCases(name, ms, path)
         case Other => [])
  }

  /** JavaTestCode.all(): parse the file at `path` and list its test cases, or
      throw one IllegalState exception naming the path. */
  function All(parse: Parser, path: Path): (r: Result<seq<Case>, Exception>)
    ensures r.Failure? <==> parse(File(path)).Failure?
    ensures r.Failure? ==> r.error == IllegalState(path, parse(File(path)).error)
    ensures r.Success? ==> r.value == UnitCases(parse(File(path)).value, path)
    ensures r.Success? ==> |r.value| == UnitTestCount(parse(File(path)).value)
    ensures r.Success? ==> forall c :: c in r.value ==> c.path == path
  {
    match parse(File(path))
    case Failure(e) => Failure(IllegalState(path, e))
    case Success(unit) => Success(UnitCases(unit, path))
  }

  /** Cases split over a concatenation of method lists: the cases of earlier
      methods come first (declaration order is kept). */
  lemma {:induction false} MethodCasesAppend(className: string, a: seq<Method>, b: seq<Method>, path: Path)
    ensures MethodCases(className, a + b, path) == MethodCases(className, a, path) + MethodCases(className, b, path)
    decreases |b|
  {
    if b == [] {
      assert a + b == a;
    } else {
      var b' := b[..|b| - 1];
      assert (a + b)[..|a + b| - 1] == a + b';
      assert (a + b)[|a + b| - 1] == b[|b| - 1];
      MethodCasesAppend(className, a, b', path);
    }
  }

  /** Cases split over a concatenation of units: earlier classes' cases come first. */
  lemma {:induction false} UnitCasesAppend(a: seq<Node>, b: seq<Node>, path: Path)
    ensures UnitCases(a + b, path) == UnitCases(a, path) + UnitCases(b, path)
    decreases |b|
  {
    if b == [] {
      assert a + b == a;
    } else {
      var b' := b[..|b| - 1];
      assert (a + b)[..|a + b| - 1] == a + b';
      assert (a + b)[|a + b| - 1] == b[|b| - 1];
      UnitCasesAppend(a, b', path);
    }
  }

  /** A single method yields exactly one case when it is a test, none otherwise. */
  lemma SingleMethodCases(className: string, m: Method, path: Path)
    ensures MethodCases(className, [m], path) == (if IsTest(m) then [Case(className, m.name, path)] else [])
  {
    assert [m][..0] == [];
  }

  /** Inserting a private method anywhere in a class changes nothing. */
  lemma PrivateMethodIgnored(className: string, a: seq<Method>, m: Method, b: seq<Method>, path: Path)
    requires m.isPrivate
    ensures MethodCases(className, a + [m] + b, path) == MethodCases(className, a + b, path)
  {
    MethodCasesAppend(className, a + [m], b, path);
    MethodCasesAppend(className, a, [m], path);
    SingleMethodCases(className, m, path);
    MethodCasesAppend(className, a, b, path);
  }

  /** Inserting a top-level node that is not a class declaration changes nothing. */
  lemma OtherNodeIgnored(a: seq<Node>, n: Node, b: seq<Node>, path: Path)
    requires !IsTestClass(n)
    ensures UnitCases(a + [n] + b, path) == UnitCases(a + b, path)
  {
    UnitCasesAppend(a + [n], b, path);
    UnitCasesAppend(a, [n], path);
    assert [n][..0] == [];
    UnitCasesAppend(a, b, path);
  }

  /** Two identical test methods give two equal cases: the list keeps duplicates. */
  lemma DuplicatesKept(className: string, m: Method, path: Path)
    requires IsTest(m)
    ensures var r := UnitCases([ClassDecl(className, [m, m])], path);
      |r| == 2 && r[0] == r[1] == Case(className, m.name, path)
  {
    var ms := [m, m];
    var c := Case(className, m.name, path);
    assert ms == [m] + [m];
    MethodCasesAppend(className, [m], [m], path);
    SingleMethodCases(className, m, path);
    assert MethodCases(className, ms, path) == [c, c];
    var unit := [ClassDecl(className, ms)];
    assert unit[..0] == [];
  }

  /** A unit whose classes have no qualifying method parses to an empty list,
      not to an exception. */
  lemma NoTestsNoError(parse: Parser, path: Path)
    requires parse(File(path)).Success?
    requires UnitTestCount(parse(File(path)).value) == 0
    ensures All(parse, path) == Success([])
  {
  }
}
