/** Whole runs of the program on small trees, one per situation the tool is meant to handle. */
module Scenarios {
  import opened Harness
  import opened CaseRunner
  import opened Traversal
  import opened Tool

  const TestDir: Path := ["test"]
  const Source: string := "contract C {}\n"
  const Vi: Config := Config("vi")

  /**
   `a.test` passes; `b/c.test` fails with one error, the operator updates
   it and the re-run passes: the file now holds the source, the separator
   and the error, and both tests count as passed.
   */
  lemma UpdateThenPass()
    ensures var tree := Dir("syntaxTests", [File("a.test"), Dir("b", [File("c.test")])]);
      var failing := TestCase(Source, ["Error: X"]);
      var env := Env([Loaded(TestCase("", []), Passed), Loaded(failing, Failed), Loaded(TestCase(Source, []), Passed)], ['u'], []);
      RunTool(Vi, TestPath(TestDir, true, tree), env)
      == Exited(0, State(2, 2, [["syntaxTests", "a.test"], ["syntaxTests", "b", "c.test"]], Env([], [], []),
                         [Wrote(["test", "libsolidity", "syntaxTests", "b", "c.test"], "contract C {}\n// ----\n// Error: X\n")]))
  {
    var failing := TestCase(Source, ["Error: X"]);
    var env := Env([Loaded(TestCase("", []), Passed), Loaded(failing, Failed), Loaded(TestCase(Source, []), Passed)], ['u'], []);
    var base := Base(TestDir);
    var a := ["syntaxTests", "a.test"];
    var s0 := Initial(env);
    var s1 := State(1, 1, [a], env.(engine := env.engine[1..]), []);
    assert ProcessPath(Vi, base, a, File("a.test"), s0) == Step(Continue, s1);
    var s3 := UpdatedDirectory();
    var b := Dir("b", [File("c.test")]);
    assert Root + ["a.test"] == a;
    var children := [File("a.test"), b];
    assert ProcessChildren(Vi, base, Root, children[1..][1..], s3) == Step(Continue, s3);
    assert ProcessChildren(Vi, base, Root, children[1..], s1) == Step(Continue, s3);
    assert ProcessChildren(Vi, base, Root, children, s0) == Step(Continue, s3);
    assert Walk(Vi, TestDir, Dir("syntaxTests", children), env) == Step(Continue, s3);
  }

  /** The directory `b` of `UpdateThenPass`, entered after `a.test` passed. */
  lemma UpdatedDirectory() returns (s3: State)
    ensures var failing := TestCase(Source, ["Error: X"]);
      var s1 := State(1, 1, [["syntaxTests", "a.test"]], Env([Loaded(failing, Failed), Loaded(TestCase(Source, []), Passed)], ['u'], []), []);
      && s3 == State(2, 2, [["syntaxTests", "a.test"], ["syntaxTests", "b", "c.test"]], Env([], [], []),
                     [Wrote(["test", "libsolidity", "syntaxTests", "b", "c.test"], "contract C {}\n// ----\n// Error: X\n")])
      && ProcessPath(Vi, Base(TestDir), Root + ["b"], Dir("b", [File("c.test")]), s1) == Step(Continue, s3)
  {
    var failing := TestCase(Source, ["Error: X"]);
    var base := Base(TestDir);
    var c := ["syntaxTests", "b", "c.test"];
    var s1 := State(1, 1, [["syntaxTests", "a.test"]], Env([Loaded(failing, Failed), Loaded(TestCase(Source, []), Passed)], ['u'], []), []);
    s3 := UpdatedLeaf();
    assert ["syntaxTests", "b"] + ["c.test"] == c;
    assert Root + ["b"] == ["syntaxTests", "b"];
    assert ProcessChildren(Vi, base, ["syntaxTests", "b"], [File("c.test")][1..], s3) == Step(Continue, s3);
    assert ProcessChildren(Vi, base, ["syntaxTests", "b"], [File("c.test")], s1) == Step(Continue, s3);
  }

  /** The file `b/c.test` of `UpdateThenPass`: fails, is updated, passes on the re-run. */
  lemma UpdatedLeaf() returns (s3: State)
    ensures var failing := TestCase(Source, ["Error: X"]);
      var s1 := State(1, 1, [["syntaxTests", "a.test"]], Env([Loaded(failing, Failed), Loaded(TestCase(Source, []), Passed)], ['u'], []), []);
      && s3 == State(2, 2, [["syntaxTests", "a.test"], ["syntaxTests", "b", "c.test"]], Env([], [], []),
                     [Wrote(["test", "libsolidity", "syntaxTests", "b", "c.test"], "contract C {}\n// ----\n// Error: X\n")])
      && ProcessPath(Vi, Base(TestDir), ["syntaxTests", "b", "c.test"], File("c.test"), s1) == Step(Continue, s3)
  {
    var failing := TestCase(Source, ["Error: X"]);
    var base := Base(TestDir);
    var a, c := ["syntaxTests", "a.test"], ["syntaxTests", "b", "c.test"];
    var s1 := State(1, 1, [a], Env([Loaded(failing, Failed), Loaded(TestCase(Source, []), Passed)], ['u'], []), []);
    var text := "contract C {}\n// ----\n// Error: X\n";
    assert UpdateText(failing) == text;
    assert base + c == ["test", "libsolidity", "syntaxTests", "b", "c.test"];
    var s2 := State(1, 2, [a, c], Env([Loaded(TestCase(Source, []), Passed)], [], []), [Wrote(base + c, text)]);
    s3 := s2.(success := 2, env := Env([], [], []));
    assert Process(Vi, base + c, s2) == Step(Continue, s3);
    var counted := s1.(run := 2, visited := [a, c]);
    assert HandleResponse(Vi, base + c, failing, false, counted.(env := counted.env.(engine := counted.env.engine[1..])))
        == Step(Continue, s3);
    assert s1.visited + [c] == [a, c];
    assert Process(Vi, base + c, counted) == Step(Continue, s3);
    assert ProcessPath(Vi, base, c, File("c.test"), s1) == Process(Vi, base + c, counted);
  }

  /**
   `d.test` makes the engine throw: `u` is not offered and is read past,
   `s` skips; the file is left alone, it counts as run but not passed.
   */
  lemma ParserErrorSkipped()
    ensures var tree := Dir("syntaxTests", [File("d.test")]);
      var env := Env([Loaded(TestCase(Source, []), Threw)], ['u', 's'], []);
      RunTool(Vi, TestPath(TestDir, true, tree), env)
      == Exited(1, State(0, 1, [["syntaxTests", "d.test"]], Env([], [], []), []))
  {
    var env := Env([Loaded(TestCase(Source, []), Threw)], ['u', 's'], []);
    var base := Base(TestDir);
    var d := ["syntaxTests", "d.test"];
    var s1 := State(0, 1, [d], Env([], ['u', 's'], []), []);
    var done := State(0, 1, [d], Env([], [], []), []);
    assert HandleResponse(Vi, base + d, TestCase(Source, []), true, s1.(env := Env([], ['s'], []))) == Step(Continue, done);
    assert HandleResponse(Vi, base + d, TestCase(Source, []), true, s1) == Step(Continue, done);
    assert ProcessPath(Vi, base, d, File("d.test"), Initial(env)) == Step(Continue, done);
    var tree := Dir("syntaxTests", [File("d.test")]);
    assert Root + ["d.test"] == d;
    assert ProcessChildren(Vi, base, Root, [File("d.test")][1..], done) == Step(Continue, done);
    assert ProcessChildren(Vi, base, Root, [File("d.test")], Initial(env)) == Step(Continue, done);
    assert Walk(Vi, TestDir, tree, env) == Step(Continue, done);
  }

  /**
   A quit on the first of two failing tests leaves the second one unvisited
   and unrun: its engine answer and the key after the quit stay unread.
   */
  lemma QuitStopsWalk()
    ensures var tree := Dir("syntaxTests", [File("e.test"), File("f.test")]);
      var env := Env([Loaded(TestCase(Source, []), Failed), Loaded(TestCase(Source, []), Failed)], ['x', 'q', 's'], []);
      RunTool(Vi, TestPath(TestDir, true, tree), env)
      == Exited(1, State(0, 1, [["syntaxTests", "e.test"]], Env([Loaded(TestCase(Source, []), Failed)], ['s'], []), []))
  {
    var env := Env([Loaded(TestCase(Source, []), Failed), Loaded(TestCase(Source, []), Failed)], ['x', 'q', 's'], []);
    var base := Base(TestDir);
    var e := ["syntaxTests", "e.test"];
    var rest := [Loaded(TestCase(Source, []), Failed)];
    var s1 := State(0, 1, [e], Env(rest, ['x', 'q', 's'], []), []);
    var done := State(0, 1, [e], Env(rest, ['s'], []), []);
    assert HandleResponse(Vi, base + e, TestCase(Source, []), false, s1.(env := Env(rest, ['q', 's'], []))) == Step(Abort, done);
    assert HandleResponse(Vi, base + e, TestCase(Source, []), false, s1) == Step(Abort, done);
    assert ProcessPath(Vi, base, e, File("e.test"), Initial(env)) == Step(Abort, done);
    assert Root + ["e.test"] == e;
    assert ProcessChildren(Vi, base, Root, [File("e.test"), File("f.test")], Initial(env)) == Step(Abort, done);
    assert Walk(Vi, TestDir, Dir("syntaxTests", [File("e.test"), File("f.test")]), env) == Step(Abort, done);
  }

  /** A failing editor only adds a warning; the re-run it leads to decides the outcome. */
  lemma EditorFailureOnlyWarns()
    ensures var env := Env([Loaded(TestCase(Source, []), Failed), Loaded(TestCase(Source, []), Passed)], ['e'], [127]);
      var file := ["test", "libsolidity", "syntaxTests"];
      RunTool(Vi, TestPath(TestDir, true, File("syntaxTests")), env)
      == Exited(0, State(1, 1, [["syntaxTests"]], Env([], [], []),
                         [RanEditor(file, EditorCommand(Vi, file)), EditorFailed(file)]))
  {
    var file := ["test", "libsolidity", "syntaxTests"];
    var done := EditedLeaf();
    var env := Env([Loaded(TestCase(Source, []), Failed), Loaded(TestCase(Source, []), Passed)], ['e'], [127]);
    assert Base(TestDir) + Root == file;
    assert Walk(Vi, TestDir, File("syntaxTests"), env) == Step(Continue, done);
  }

  /** The operator loop of `EditorFailureOnlyWarns`, entered after the first, failing run. */
  lemma EditedLeaf() returns (done: State)
    ensures var file := ["test", "libsolidity", "syntaxTests"];
      var s1 := State(0, 1, [["syntaxTests"]], Env([Loaded(TestCase(Source, []), Passed)], ['e'], [127]), []);
      && done == State(1, 1, [["syntaxTests"]], Env([], [], []),
                       [RanEditor(file, EditorCommand(Vi, file)), EditorFailed(file)])
      && HandleResponse(Vi, file, TestCase(Source, []), false, s1) == Step(Continue, done)
  {
    var file := ["test", "libsolidity", "syntaxTests"];
    var effects := [RanEditor(file, EditorCommand(Vi, file)), EditorFailed(file)];
    var s2 := State(0, 1, [["syntaxTests"]], Env([Loaded(TestCase(Source, []), Passed)], [], []), effects);
    done := s2.(success := 1, env := Env([], [], []));
    assert Process(Vi, file, s2) == Step(Continue, done);
  }
}
