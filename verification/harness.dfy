/**
 The data shared by the syntax-test harness: the directory tree it walks,
 the answers the foreign parts of the program give it (the test engine,
 the operator's keyboard, the editor process), the counters it keeps and
 the changes it makes on disk.
 */
module Harness {

  /** A path as its sequence of components. */
  type Path = seq<string>

  /** Renders a path the way it is handed to the editor command line. */
  function Render(p: Path): string {
    if |p| == 0 then ""
    else if |p| == 1 then p[0]
    else p[0] + "/" + Render(p[1..])
  }

  /**
   A directory entry. Every entry that is not a directory is a test file,
   whatever it holds; the children of a directory come in the order the
   file system lists them, which the program does not fix.
   */
  datatype Node = File(name: string) | Dir(name: string, children: seq<Node>)

  /** A syntax test as the engine loaded it: its source and observed errors, each rendered on one line. */
  datatype TestCase = TestCase(source: string, errors: seq<string>)

  /** How running a loaded test went: the errors matched, they did not, or the engine threw. */
  datatype Verdict = Passed | Failed | Threw

  /** The engine's answer for one attempt at a test file. */
  datatype CaseLoad = Unreadable | Loaded(test: TestCase, verdict: Verdict)

  /** The answers of the foreign parts, each consumed in the order the program asks for them. */
  datatype Env = Env(engine: seq<CaseLoad>, keys: seq<char>, editorExits: seq<int>)

  /** What the harness does to the file system and the processes around it. */
  datatype Effect =
    | Wrote(file: Path, text: string)
    | RanEditor(file: Path, command: string)
    | EditorFailed(file: Path)

  /** The editor command; it is empty when neither the flag nor `EDITOR` names one. */
  datatype Config = Config(editor: string)

  /**
   `success` and `run` are the two counters; `visited` lists the test files
   in the order they were reached.
   */
  datatype State = State(success: nat, run: nat, visited: seq<Path>, env: Env, effects: seq<Effect>)

  /**
   Whether processing goes on (`true` in the program), stops (`false`), or
   cannot be followed further because the model was not given an answer it
   needs. Only for the keyboard would the program itself wait; the engine
   and the editor process always answer.
   */
  datatype Signal = Continue | Abort | OutOfInput

  datatype Step = Step(signal: Signal, st: State)

  function Initial(env: Env): (st: State)
    ensures st.success == 0 && st.run == 0 && |st.visited| == 0 && |st.effects| == 0
  {
    State(0, 0, [], env, [])
  }

  /** `after` extends `before`, and everything appended concerns `file` itself. */
  predicate OnlyAbout(before: seq<Effect>, after: seq<Effect>, file: Path) {
    && before <= after
    && forall i | |before| <= i < |after| :: after[i].file == file
  }

  /** `after` extends `before`, and everything appended concerns a file below `dir`. */
  predicate OnlyBelow(before: seq<Effect>, after: seq<Effect>, dir: Path) {
    && before <= after
    && forall i | |before| <= i < |after| :: dir <= after[i].file
  }

  /** The test files below `node`, whose path is `rel`, in visiting order. */
  function Leaves(rel: Path, node: Node): (r: seq<Path>)
    decreases node
  {
    match node
    case File(_) => [rel]
    case Dir(_, children) => ChildLeaves(rel, children)
  }

  function ChildLeaves(rel: Path, children: seq<Node>): (r: seq<Path>)
    decreases children
  {
    if |children| == 0 then []
    else Leaves(rel + [children[0].name], children[0]) + ChildLeaves(rel, children[1..])
  }

  /** Every test file found below a directory lies inside it, and there is at least one per file entry. */
  lemma {:induction false} LeavesInside(rel: Path, node: Node)
    ensures forall i | 0 <= i < |Leaves(rel, node)| :: rel <= Leaves(rel, node)[i]
    ensures node.File? ==> |Leaves(rel, node)| == 1
    decreases node
  {
    match node
    case File(_) =>
    case Dir(_, children) => ChildLeavesInside(rel, children);
  }

  lemma {:induction false} ChildLeavesInside(rel: Path, children: seq<Node>)
    ensures forall i | 0 <= i < |ChildLeaves(rel, children)| :: rel <= ChildLeaves(rel, children)[i]
    decreases children
  {
    if |children| != 0 {
      var c := children[0];
      LeavesInside(rel + [c.name], c);
      ChildLeavesInside(rel, children[1..]);
      var first := Leaves(rel + [c.name], c);
      var rest := ChildLeaves(rel, children[1..]);
      assert ChildLeaves(rel, children) == first + rest;
      forall i | 0 <= i < |first + rest|
        ensures rel <= (first + rest)[i]
      {
        if i < |first| {
          assert rel <= rel + [c.name] <= first[i];
        } else {
          assert (first + rest)[i] == rest[i - |first|];
        }
      }
    }
  }

  /** The effects with the editor warnings left out. */
  function Quiet(effects: seq<Effect>): (r: seq<Effect>)
    ensures forall i | 0 <= i < |r| :: !r[i].EditorFailed?
    ensures |r| <= |effects|
  {
    if |effects| == 0 then []
    else
      var last := effects[|effects| - 1];
      Quiet(effects[..|effects| - 1]) + (if last.EditorFailed? then [] else [last])
  }

  lemma QuietAppend(effects: seq<Effect>, e: Effect)
    ensures Quiet(effects + [e]) == Quiet(effects) + (if e.EditorFailed? then [] else [e])
  {
    assert (effects + [e])[..|effects|] == effects;
  }

  /**
   Two states that agree on everything except the exit statuses the editor
   will report and the warnings those statuses caused.
   */
  predicate SameButEditorStatus(a: State, b: State) {
    && a.success == b.success && a.run == b.run && a.visited == b.visited
    && a.env.engine == b.env.engine && a.env.keys == b.env.keys
    && |a.env.editorExits| == |b.env.editorExits|
    && Quiet(a.effects) == Quiet(b.effects)
  }

  predicate Passes(answer: CaseLoad) {
    answer.Loaded? && answer.verdict == Passed
  }

  predicate Fails(answer: CaseLoad) {
    answer.Loaded? && answer.verdict != Passed
  }

  /** How many of the answers are passes. */
  function PassedAmong(answers: seq<CaseLoad>): (n: nat)
    ensures n <= |answers|
  {
    if |answers| == 0 then 0
    else (if Passes(answers[0]) then 1 else 0) + PassedAmong(answers[1..])
  }

  /** How many of the answers are failures, parser errors included. */
  function FailedAmong(answers: seq<CaseLoad>): (n: nat)
    ensures n <= |answers|
  {
    if |answers| == 0 then 0
    else (if Fails(answers[0]) then 1 else 0) + FailedAmong(answers[1..])
  }

  lemma {:induction false} AmongConcat(a: seq<CaseLoad>, b: seq<CaseLoad>)
    ensures PassedAmong(a + b) == PassedAmong(a) + PassedAmong(b)
    ensures FailedAmong(a + b) == FailedAmong(a) + FailedAmong(b)
  {
    if |a| != 0 {
      assert (a + b)[0] == a[0];
      assert (a + b)[1..] == a[1..] + b;
      AmongConcat(a[1..], b);
    } else {
      assert a + b == b;
    }
  }
}
