# jtcop test discovery and test-class model, in Dafny

This project models the layer of jtcop that turns a parsed Java source file into
the model its naming and assertion rules run against:

- **Test-case discovery** (`JavaTestCode`). The model parses a file and keeps its
  top-level class and interface declarations. From each one it keeps the
  non-private methods annotated `@Test` or `@ParameterizedTest`. It emits one
  `(class name, method name, path)` case per kept method, in declaration order
  and as a list, so duplicates stay. A parse failure becomes one `IllegalState`
  exception that carries the path.
- **Test-class model** (`TestClassJavaParser`). Each instance wraps a
  compute-once parse cell:
  - Its name is the file name of its path, not the declared type name.
  - Its cases are a *set* with one entry per method the test filter keeps, so
    equal cases collapse.
  - Its suppressed rules are the union of the annotation suppressions and the
    project-wide exclusions.
  - The constructors that take no exclusions use an empty list.
- **Assertion fixtures** (`Assertion.Fake`, `Assertion.Empty`). They have the
  shape of the explanation / arguments / name contract.

The modules are:

- `Wrappers`: Option and Result.
- `Syntax`: paths, the abstract syntax tree, parse errors, exceptions and the
  parser type.
- `JavaTestCode`: list-based discovery.
- `Sticky`: the compute-once cell.
- `TestClassJavaParser`: the test-class model and its query sessions.
- `Assertions`: the fixtures.

Modelling choices:

- The Java parser is a foreign library. It appears only as a total function
  `Parser` from a source (a file path or an open stream) to either a list of
  top-level nodes or a `ParseError`. That error is an I/O failure or a parse
  problem.
- A node is a class or interface declaration (with its name and its own
  methods) or anything else.
- A method has a name, a privacy flag and the simple names of its annotations.
- A Java `Path` is its list of name elements plus a rootedness flag.
  `getFileName()` is the last element, or null when there are none.
- A nullable Java `String` and a `java.util.Optional` are both `Option<string>`.
  `None` stands for null or for `Optional.empty()`.
- Thrown exceptions are the `Failure` side of a `Result`. `IllegalState(path,
  cause)` is the wrapped "Failed to parse Java class by path" exception.
  `Rethrown(cause)` is the parse cell's unchecked failure, which escapes
  without the IllegalState wrapping. `NullPointer` is `toString()` on a null
  file name.
- A test-class instance is a value. A query returns its answer together with the
  instance as it is afterwards, because the parse cell may have filled in.
  `Session` runs a sequence of queries, and `CacheTransparent` compares its
  answers with those of an instance that parses afresh each time.
- The parse cell keeps a value only when the parse succeeded. A parse that
  throws leaves the cell empty, so the next query parses again. Under this
  reading, "parsed at most once" is proved for a parse that succeeds. For a parse
  that fails, the model proves one parse per query that needs the unit.
- `JavaParserClass`, `TestsOnly`, `TestCaseJavaParser` and the annotation
  suppression source are not part of this model. They appear as the
  uninterpreted functions of a `Reader`: the unit's methods, the test filter,
  and the annotation suppressions. A test case is the structural pair (method,
  owning class path).

Two facts about the program worth stating:

- `Fake("")` has a present, empty explanation, because the Assertion interface
  does not forbid empty explanations (`FakeOfEmptyPresent`).
- `isTest` checks exactly `Test` and `ParameterizedTest`. `IsTest` states the
  check as a meet with that fixed two-element marker set.

## Model

| member | source | states |
|---|---|---|
| JavaTestCode.IsTest | src/main/java/com/github/lombrozo/testnames/javaparser/JavaTestCode.java:114-117 | a method is a test exactly when it is not private and its annotations meet the marker set {Test, ParameterizedTest} |
| JavaTestCode.IsTestClass | src/main/java/com/github/lombrozo/testnames/javaparser/JavaTestCode.java:104-106 | a top-level node counts as a test class exactly when it is a class or interface declaration |
| JavaTestCode.PrivateNeverTest | src/main/java/com/github/lombrozo/testnames/javaparser/JavaTestCode.java:115 | a private method is never a test, whatever annotations it carries |
| JavaTestCode.MethodCases | src/main/java/com/github/lombrozo/testnames/javaparser/JavaTestCode.java:85-97 | a class yields as many cases as it has test methods; every case carries the class name, a test method's name and the unchanged path; every test method has its case |
| JavaTestCode.UnitCases | src/main/java/com/github/lombrozo/testnames/javaparser/JavaTestCode.java:65-70 | a unit yields as many cases as its class declarations have test methods; each case names a class declaration of the unit and one of its test methods, with the unchanged path; every such pair has its case |
| JavaTestCode.All | src/main/java/com/github/lombrozo/testnames/javaparser/JavaTestCode.java:62-77 | all() fails exactly when the parse fails, and then with one IllegalState carrying the path and the cause; otherwise the list is exactly the unit's cases (UnitCases of the parsed unit), one per qualifying method, all with the path |
| JavaTestCode.MethodCasesAppend | src/main/java/com/github/lombrozo/testnames/javaparser/JavaTestCode.java:87-96 | cases follow method declaration order: the cases of a concatenation are the cases of the first part followed by those of the second |
| JavaTestCode.UnitCasesAppend | src/main/java/com/github/lombrozo/testnames/javaparser/JavaTestCode.java:65-70 | cases follow class order: the cases of concatenated node lists are the first list's cases followed by the second's |
| JavaTestCode.SingleMethodCases | src/main/java/com/github/lombrozo/testnames/javaparser/JavaTestCode.java:87-96 | one method yields exactly one case (class, method, path) when it is a test and none otherwise |
| JavaTestCode.PrivateMethodIgnored | src/main/java/com/github/lombrozo/testnames/javaparser/JavaTestCode.java:114-117 | inserting a private method anywhere in a class leaves its case list unchanged |
| JavaTestCode.OtherNodeIgnored | src/main/java/com/github/lombrozo/testnames/javaparser/JavaTestCode.java:104-106 | inserting a top-level node that is not a class or interface declaration leaves the case list unchanged |
| JavaTestCode.DuplicatesKept | src/main/java/com/github/lombrozo/testnames/javaparser/JavaTestCode.java:65-70 | two identical test methods give a list of two equal cases: the list keeps duplicates |
| JavaTestCode.NoTestsNoError | src/main/java/com/github/lombrozo/testnames/javaparser/JavaTestCode.java:64-70 | a unit that parses but has no qualifying method yields the empty list, not an exception |
| Sticky.Fresh | src/main/java/com/github/lombrozo/testnames/javaparser/TestClassJavaParser.java:72 | a new cell has not run its thunk and satisfies the cache invariant |
| Sticky.Value | src/main/java/com/github/lombrozo/testnames/javaparser/TestClassJavaParser.java:133 | an access to a filled cell returns the kept value and changes nothing; an access to an empty cell runs the thunk once; on a coherent cell the answer is always the thunk's outcome and only a success is kept |
| Sticky.RepeatedValue | src/main/java/com/github/lombrozo/testnames/javaparser/TestClassJavaParser.java:72 | any number of accesses return the thunk's outcome; a succeeding thunk runs at most once in all, a failing one once per access |
| TestClassJavaParser.Make | src/main/java/com/github/lombrozo/testnames/javaparser/TestClassJavaParser.java:127-135 | the canonical constructor keeps the path, the parse cell and the exclusions as given |
| TestClassJavaParser.OfParsed | src/main/java/com/github/lombrozo/testnames/javaparser/TestClassJavaParser.java:101-103 | the constructor without exclusions uses the empty list |
| TestClassJavaParser.OfPath | src/main/java/com/github/lombrozo/testnames/javaparser/TestClassJavaParser.java:71-73 | built from a path alone: no exclusions, nothing parsed yet, and the cell will parse the file at that path |
| TestClassJavaParser.OfPathExcluding | src/main/java/com/github/lombrozo/testnames/javaparser/TestClassJavaParser.java:81-83 | built from a path and exclusions: keeps both, nothing parsed yet, the cell will parse the file at that path |
| TestClassJavaParser.OfStream | src/main/java/com/github/lombrozo/testnames/javaparser/TestClassJavaParser.java:91-93 | built from a path and a stream: no exclusions, and the cell will parse the stream rather than the file |
| TestClassJavaParser.OfStreamExcluding | src/main/java/com/github/lombrozo/testnames/javaparser/TestClassJavaParser.java:112-118 | built from a path, a stream and exclusions: keeps path and exclusions, the cell will parse the stream |
| TestClassJavaParser.CaseSet | src/main/java/com/github/lombrozo/testnames/javaparser/TestClassJavaParser.java:145-148 | a case is in the set exactly when it pairs a method the filter keeps with the owning path; the set is no larger than the number of kept methods, and exactly that large when no method repeats |
| TestClassJavaParser.CasesOf | src/main/java/com/github/lombrozo/testnames/javaparser/TestClassJavaParser.java:143-155 | all() for a parse outcome fails exactly when the parse fails, then with one IllegalState carrying the path; otherwise it is the set of cases of the methods the filter keeps |
| TestClassJavaParser.SuppressionsOf | src/main/java/com/github/lombrozo/testnames/javaparser/TestClassJavaParser.java:162-168 | suppressed() for a parse outcome contains a rule exactly when it is in the annotation suppressions or the exclusions; on a parse failure it throws the cell's unchecked failure, not an IllegalState |
| Syntax.FileName | src/main/java/com/github/lombrozo/testnames/javaparser/TestClassJavaParser.java:139 | getFileName() is null exactly when the path has no name elements, and otherwise the last name element |
| TestClassJavaParser.Name | src/main/java/com/github/lombrozo/testnames/javaparser/TestClassJavaParser.java:137-140 | name() is the last name element of the path; a path with none throws a NullPointerException |
| TestClassJavaParser.PathOf | src/main/java/com/github/lombrozo/testnames/javaparser/TestClassJavaParser.java:157-160 | path() returns the path the instance holds |
| TestClassJavaParser.All | src/main/java/com/github/lombrozo/testnames/javaparser/TestClassJavaParser.java:143-155 | all() answers with the thunk's case set or wrapped failure, keeps the invariant, and changes only the cell (not at all once it is filled) |
| TestClassJavaParser.Suppressed | src/main/java/com/github/lombrozo/testnames/javaparser/TestClassJavaParser.java:162-168 | suppressed() answers with the thunk's suppression union or the unchecked failure, keeps the invariant, and changes only the cell |
| TestClassJavaParser.CacheTransparent | src/main/java/com/github/lombrozo/testnames/javaparser/TestClassJavaParser.java:127-135 | every answer of any query session equals the answer of an instance that parses afresh each time; a successful parse runs at most once in the session, a failing one once per query needing it |
| TestClassJavaParser.ParsedAtMostOnce | src/main/java/com/github/lombrozo/testnames/javaparser/TestClassJavaParser.java:81-83 | a new instance over a file that parses runs the parser at most once whatever queries follow |
| TestClassJavaParser.NameIsFileName | src/main/java/com/github/lombrozo/testnames/javaparser/TestClassJavaParser.java:137-140 | a file FooTest.java declaring class FooTest is named "FooTest.java", not "FooTest" |
| TestClassJavaParser.NameAndPathIgnoreSource | src/main/java/com/github/lombrozo/testnames/javaparser/TestClassJavaParser.java:137-160 | two instances on one path have equal names and paths, whatever their sources, exclusions or cache states |
| TestClassJavaParser.PathIsConstructorPath | src/main/java/com/github/lombrozo/testnames/javaparser/TestClassJavaParser.java:157-160 | path() returns the constructor's path, for each of the four package-private convenience constructors and after any session |
| TestClassJavaParser.ExclusionsSuppressed | src/main/java/com/github/lombrozo/testnames/javaparser/TestClassJavaParser.java:162-168 | when the parse succeeds every exclusion and every annotation suppression is in the suppressed set |
| TestClassJavaParser.SuppressionsCollapse | src/main/java/com/github/lombrozo/testnames/javaparser/TestClassJavaParser.java:164-167 | repeated rule names collapse: the suppressed set has no more elements than the two name lists have entries, and exclusions that all occur among the annotation suppressions add nothing |
| TestClassJavaParser.SuppressionUnion | src/main/java/com/github/lombrozo/testnames/javaparser/TestClassJavaParser.java:162-168 | suppressions with exclusions a + b are the union of the suppressions with a and with b |
| TestClassJavaParser.DefaultExclusionsEmpty | src/main/java/com/github/lombrozo/testnames/javaparser/TestClassJavaParser.java:101-103 | instances built without exclusions (from a path or a stream) suppress exactly the annotation suppressions |
| TestClassJavaParser.NoExclusionsAddNothing | src/main/java/com/github/lombrozo/testnames/javaparser/TestClassJavaParser.java:164-167 | with an empty exclusion list the suppressed set is the annotation suppressions alone |
| TestClassJavaParser.EqualCasesCollapse | src/main/java/com/github/lombrozo/testnames/javaparser/TestClassJavaParser.java:145-148 | two equal kept methods give a one-element case set |
| TestClassJavaParser.FailureWrapping | src/main/java/com/github/lombrozo/testnames/javaparser/TestClassJavaParser.java:149-154 | on a parse failure all() throws IllegalState with the path and cause, while suppressed() throws the cell's unchecked failure without the IllegalState wrapping |
| TestClassJavaParser.RoutesAgree | src/main/java/com/github/lombrozo/testnames/javaparser/TestClassJavaParser.java:143-148 | with the class declarations' methods as the unit's methods and the marker check as the test filter, the case set and the list-based discovery name the same test methods |
| Assertions.FakeOf | src/main/java/com/github/lombrozo/testnames/Assertion.java:75-77 | the no-argument Fake always has a present explanation, equal to its name, and the five fixed arguments |
| Assertions.Explanation | src/main/java/com/github/lombrozo/testnames/Assertion.java:88-90 | a Fake's explanation is present exactly when its message is non-null and then equals it; Empty's is absent |
| Assertions.Arguments | src/main/java/com/github/lombrozo/testnames/Assertion.java:92-97 | every Fake's arguments are exactly "0", "1", "2", "3", "4" in order; Empty's are empty |
| Assertions.Decimal | src/main/java/com/github/lombrozo/testnames/Assertion.java:95 | String.valueOf on a non-negative int gives non-empty decimal digits without leading zeros that read back as the number |
| Assertions.DecimalRange | src/main/java/com/github/lombrozo/testnames/Assertion.java:94-96 | the range lo..hi mapped through String.valueOf has hi - lo elements, the i-th being the digits of lo + i |
| Assertions.Name | src/main/java/com/github/lombrozo/testnames/Assertion.java:99-102 | a Fake's name is its message (null included); Empty's is "" |
| Assertions.FakeExplanationIsName | src/main/java/com/github/lombrozo/testnames/Assertion.java:83-102 | a Fake's explanation is present exactly when its name is non-null, and then equals it |
| Assertions.FakeOfNullAbsent | src/main/java/com/github/lombrozo/testnames/Assertion.java:88-90 | Fake(null) has an absent explanation and a null name |
| Assertions.FakeOfEmptyPresent | src/main/java/com/github/lombrozo/testnames/Assertion.java:83-90 | Fake("") has a present, empty explanation |
| Assertions.FakeArgumentsIgnoreMessage | src/main/java/com/github/lombrozo/testnames/Assertion.java:92-97 | all Fakes share one five-element argument list, whatever their messages |
| Assertions.EmptyShape | src/main/java/com/github/lombrozo/testnames/Assertion.java:112-125 | Empty has an absent explanation, no arguments and the empty name |

## Left out

- The Java parser (StaticJavaParser and its node tree) is foreign. It is the `Parser` parameter, and the tree keeps only top-level class and interface declarations with their own methods.
- Nested types are not modelled. `getMethods()` returns a declaration's own methods only.
- Method parameters, bodies and annotation arguments are not modelled. Two overloads with the same name, privacy and annotations are therefore one `Method` value.
- Annotation names are simple identifiers. The parser's lookup by simple name is assumed, not modelled.
- JavaParserClass, TestsOnly, TestCaseJavaParser and `annotations().suppressed()` are not part of this model. They enter as the uninterpreted functions of a `Reader`, and nothing is assumed about their rules. TestCaseJavaParser's equality is taken as structural over (method, owner path).
- AssertionOfJUnit is not modelled.
- `UUID.randomUUID()` is not modelled. The random token is the `token` parameter of `Assertions.FakeOf`, which requires only that it is non-empty.
- File and stream I/O, stream lifetimes and the cache's thread safety are not modelled. A read failure is the `IoFailure` parse error.
- The message text "Failed to parse Java class by path %s" is not modelled. The exception is represented structurally by its path and cause.
- The conversion of an IOException into an UncheckedIOException inside the parse cell is not modelled separately. An I/O failure is the `IoFailure` parse error whichever exception class carries it.
- TestClassJavaParser.CacheTransparent: a stream-built instance whose parse fails is assumed to parse the same bytes again on the next query, so its failure clause promises that every later `all()` or `suppressed()` repeats the first failure. In the program the cell's lambda holds one `InputStream`, which the first attempt has already consumed, so a retry reads whatever is left of that stream. For file-built instances the retry reads the file again, as the model says.
- TestClassJavaParser.Make: the canonical constructor receives its `Sticky` cell and its exclusion collection by reference. Two instances built on one cell therefore share a single parse, and a caller who later changes the collection changes what `suppressed()` returns. The model copies the cell into each instance and freezes the exclusions as a sequence, so neither sharing nor later changes are modelled.
- TestClassJavaParser.All: the answer is stated relative to the thunk only for instances satisfying `Valid`. Every convenience constructor establishes `Valid`, the canonical constructor establishes it when given a fresh or coherent cell, and every query preserves it, but a hand-built cell whose cached value disagrees with its thunk is not covered.
