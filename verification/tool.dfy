/**
 The program's entry point: what the command line asked for, the walk
 over `<testpath>/libsolidity/syntaxTests`, and the exit status. After the
 walk, the status is 0 exactly when every file counted as run was also
 counted as passed.
 */
module Tool {
  import opened Harness
  import opened Traversal

  /**
   What argument parsing produced: a request for help, an error (a missing
   `--testpath` among them), or a test path together with whether it is an
   existing directory and the tree found at `libsolidity/syntaxTests` below it.
   */
  datatype Invocation =
    | ShowHelp
    | BadArguments
    | TestPath(path: Path, isDirectory: bool, tree: Node)

  /** The program exited with `code`, or the model stopped because it was not given an answer it needs. */
  datatype Run = Exited(code: int, final: State) | Unanswered(final: State)

  /** The path the walk starts from, relative to `Base`. */
  const Root: Path := ["syntaxTests"]

  function Base(testPath: Path): Path {
    testPath + ["libsolidity"]
  }

  /** The summary decision: success only when every run test passed. */
  function ExitCode(st: State): (code: int)
    ensures code == 0 || code == 1
    ensures code == 0 <==> st.success == st.run
  {
    if st.run == st.success then 0 else 1
  }

  /**
   The walk started by the program for a test path that is a directory. It
   starts from zero counters and reaches the first test files of the tree in
   order, all of them when it answers `Continue`; it writes and edits only
   below `<testpath>/libsolidity/syntaxTests`.
   */
  function Walk(cfg: Config, testPath: Path, tree: Node, env: Env): (r: Step)
    ensures r.st.run == |r.st.visited|
    ensures r.st.success <= r.st.run
    ensures r.st.visited <= Leaves(Root, tree)
    ensures r.signal == Continue ==> r.st.visited == Leaves(Root, tree)
    ensures r.signal != Continue ==> r.st.success < r.st.run
    ensures OnlyBelow([], r.st.effects, Base(testPath) + Root)
  {
    ProcessPath(cfg, Base(testPath), Root, tree, Initial(env))
  }

  /**
   The whole program. The walk's own answer is not looked at: a quit ends
   the walk early and the counters decide the exit status as usual.
   */
  function RunTool(cfg: Config, inv: Invocation, env: Env): (r: Run)
    ensures !inv.TestPath? || !inv.isDirectory ==> r.Exited? && r.final == Initial(env)
    ensures inv.ShowHelp? ==> r.code == 0
    ensures inv.BadArguments? || (inv.TestPath? && !inv.isDirectory) ==> r.code == 1
    ensures r.final.success <= r.final.run
  {
    match inv
    case ShowHelp => Exited(0, Initial(env))
    case BadArguments => Exited(1, Initial(env))
    case TestPath(path, isDirectory, tree) =>
      if !isDirectory then Exited(1, Initial(env))
      else
        var walked := Walk(cfg, path, tree, env);
        if walked.signal == OutOfInput then Unanswered(walked.st)
        else Exited(ExitCode(walked.st), walked.st)
  }

  /**
   A walk that exits with 0 reached every test file in the tree, once each,
   and counted each as passed; in particular it was not ended by a quit.
   */
  lemma ExitZeroMeansAllPassed(cfg: Config, path: Path, tree: Node, env: Env)
    requires var r := RunTool(cfg, TestPath(path, true, tree), env); r.Exited? && r.code == 0
    ensures var final := RunTool(cfg, TestPath(path, true, tree), env).final;
      && Walk(cfg, path, tree, env).signal == Continue
      && final.visited == Leaves(Root, tree)
      && final.success == final.run == |Leaves(Root, tree)|
  {
    var walked := Walk(cfg, path, tree, env);
    assert walked.st.visited[0..] == walked.st.visited;
  }

  /** A quit always leaves the program exiting with 1: the test it stopped at never passed. */
  lemma QuitExitsOne(cfg: Config, path: Path, tree: Node, env: Env)
    requires Walk(cfg, path, tree, env).signal == Abort
    ensures RunTool(cfg, TestPath(path, true, tree), env) == Exited(1, Walk(cfg, path, tree, env).st)
  {
  }

  /** When the engine passes every test file, the program exits with 0 without reading a key or writing anything. */
  lemma AllPassExitsZero(cfg: Config, path: Path, tree: Node, env: Env)
    requires |Leaves(Root, tree)| <= |env.engine|
    requires forall i | 0 <= i < |Leaves(Root, tree)| :: Passes(env.engine[i])
    ensures var r := RunTool(cfg, TestPath(path, true, tree), env);
      && r.Exited? && r.code == 0
      && r.final.run == |Leaves(Root, tree)|
      && r.final.env.keys == env.keys
      && r.final.effects == []
  {
    AllPassWalk(cfg, Base(path), Root, tree, Initial(env));
  }

  /**
   With an operator who skips every failure, every test file is run, the
   passes counted are exactly the engine's passes, and the program exits
   with 1 exactly when some file did not pass.
   */
  lemma SkippingExitCode(cfg: Config, path: Path, tree: Node, env: Env)
    requires SkipsWhenAsked(Initial(env), |Leaves(Root, tree)|)
    ensures var n := |Leaves(Root, tree)|;
      var r := RunTool(cfg, TestPath(path, true, tree), env);
      && r.Exited?
      && r.final.run == n
      && r.final.success == PassedAmong(env.engine[..n])
      && r.final.effects == []
      && (r.code == 1 <==> PassedAmong(env.engine[..n]) < n)
  {
    WalkWhenSkipping(cfg, Base(path), Root, tree, Initial(env));
  }

  /** The editor's exit statuses never change the program's exit status. */
  lemma ExitIgnoresEditorStatus(cfg: Config, inv: Invocation, env1: Env, env2: Env)
    requires env1.engine == env2.engine && env1.keys == env2.keys
    requires |env1.editorExits| == |env2.editorExits|
    ensures var r1 := RunTool(cfg, inv, env1); var r2 := RunTool(cfg, inv, env2);
      && r1.Exited? == r2.Exited?
      && (r1.Exited? ==> r1.code == r2.code)
      && r1.final.run == r2.final.run && r1.final.success == r2.final.success
      && r1.final.visited == r2.final.visited
  {
    if inv.TestPath? && inv.isDirectory {
      WalkIgnoresEditorStatus(cfg, Base(inv.path), Root, inv.tree, Initial(env1), Initial(env2));
    }
  }
}
