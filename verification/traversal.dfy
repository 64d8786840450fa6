/**
 The walk over the test directory: every entry that is a directory is
 entered, every other entry is counted as run and handed to the case
 runner, and the first `false` from below ends the walk at every level.
 */
module Traversal {
  import opened Harness
  import opened CaseRunner

  /**
   Processes the entry at `base + rel`. Whatever the outcome, the files it
   reached are the first ones of the subtree in visiting order, all lying
   below `rel`, each counted as run exactly once, and each adding at most one
   success; if it answers `Continue`, it reached all of them. Any other
   answer comes from a file that did not pass, so successes then fall
   strictly behind runs. Where the walk stops is stated by `WalkIsFlat`.
   */
  function ProcessPath(cfg: Config, base: Path, rel: Path, node: Node, st: State): (r: Step)
    ensures st.visited <= r.st.visited
    ensures r.st.run == st.run + (|r.st.visited| - |st.visited|)
    ensures r.st.visited[|st.visited|..] <= Leaves(rel, node)
    ensures r.signal == Continue ==> r.st.visited[|st.visited|..] == Leaves(rel, node)
    ensures forall i | |st.visited| <= i < |r.st.visited| :: rel <= r.st.visited[i]
    ensures st.success <= r.st.success
    ensures r.st.success - st.success <= r.st.run - st.run
    ensures r.signal != Continue ==> r.st.success - st.success < r.st.run - st.run
    ensures OnlyBelow(st.effects, r.st.effects, base + rel)
    decreases node
  {
    match node
    case Dir(_, children) =>
      var r := ProcessChildren(cfg, base, rel, children, st);
      LeavesInside(rel, node);
      VisitedInside(st.visited, r.st.visited, Leaves(rel, node), rel);
      r
    case File(_) =>
      var counted := st.(run := st.run + 1, visited := st.visited + [rel]);
      assert counted.visited[|st.visited|..] == [rel];
      Process(cfg, base + rel, counted)
  }

  /** Files reached within a prefix of a list of paths below `rel` lie below `rel`. */
  lemma VisitedInside(before: seq<Path>, after: seq<Path>, leaves: seq<Path>, rel: Path)
    requires before <= after && after[|before|..] <= leaves
    requires forall i | 0 <= i < |leaves| :: rel <= leaves[i]
    ensures forall i | |before| <= i < |after| :: rel <= after[i]
  {
    forall i | |before| <= i < |after|
      ensures rel <= after[i]
    {
      assert after[i] == after[|before|..][i - |before|] == leaves[i - |before|];
    }
  }

  /** The entries of one directory, in order, up to the first that does not answer `Continue`. */
  function ProcessChildren(cfg: Config, base: Path, rel: Path, children: seq<Node>, st: State): (r: Step)
    ensures st.visited <= r.st.visited
    ensures r.st.run == st.run + (|r.st.visited| - |st.visited|)
    ensures r.st.visited[|st.visited|..] <= ChildLeaves(rel, children)
    ensures r.signal == Continue ==> r.st.visited[|st.visited|..] == ChildLeaves(rel, children)
    ensures st.success <= r.st.success
    ensures r.st.success - st.success <= r.st.run - st.run
    ensures r.signal != Continue ==> r.st.success - st.success < r.st.run - st.run
    ensures OnlyBelow(st.effects, r.st.effects, base + rel)
    decreases children
  {
    if |children| == 0 then Step(Continue, st)
    else
      var child := children[0];
      var first := ProcessPath(cfg, base, rel + [child.name], child, st);
      assert base + rel <= base + (rel + [child.name]);
      if first.signal != Continue then
        PrefixWithin(st.visited, first.st.visited, Leaves(rel + [child.name], child), ChildLeaves(rel, children[1..]));
        first
      else
        var rest := ProcessChildren(cfg, base, rel, children[1..], first.st);
        Concatenated(st.visited, first.st.visited, rest.st.visited,
                     Leaves(rel + [child.name], child), ChildLeaves(rel, children[1..]));
        rest
  }

  /** Files reached inside the first child only are a prefix of all files reached in the directory. */
  lemma PrefixWithin<T>(before: seq<T>, after: seq<T>, first: seq<T>, rest: seq<T>)
    requires before <= after && after[|before|..] <= first
    ensures after[|before|..] <= first + rest
  {
    assert forall i | 0 <= i < |after| - |before| :: after[|before|..][i] == (first + rest)[i];
  }

  /** A complete first child followed by a prefix of the rest is a prefix of the whole. */
  lemma Concatenated<T>(v0: seq<T>, v1: seq<T>, v2: seq<T>, first: seq<T>, rest: seq<T>)
    requires v0 <= v1 && v1 <= v2
    requires v1[|v0|..] == first && v2[|v1|..] <= rest
    ensures v0 <= v2
    ensures v2[|v0|..] <= first + rest
    ensures v2[|v1|..] == rest ==> v2[|v0|..] == first + rest
  {
    assert v2[|v0|..] == v1[|v0|..] + v2[|v1|..];
  }

  /**
   The first `n` answers can be walked through by an operator who skips
   whenever asked: there are enough of them, and a skip for every failure.
   */
  predicate SkipsWhenAsked(st: State, n: nat) {
    && n <= |st.env.engine|
    && FailedAmong(st.env.engine[..n]) <= |st.env.keys|
    && forall i | 0 <= i < FailedAmong(st.env.engine[..n]) :: st.env.keys[i] == 's'
  }

  /** The state after the files `leaves` were run with an operator who skips every failure. */
  function AfterSkipping(st: State, leaves: seq<Path>): State
    requires SkipsWhenAsked(st, |leaves|)
  {
    var n := |leaves|;
    var answers := st.env.engine[..n];
    st.(success := st.success + PassedAmong(answers), run := st.run + n, visited := st.visited + leaves,
        env := st.env.(engine := st.env.engine[n..], keys := st.env.keys[FailedAmong(answers)..]))
  }

  /** Skipping through two runs of files in a row is skipping through both at once. */
  lemma AfterSkippingSplits(st: State, first: seq<Path>, rest: seq<Path>)
    requires SkipsWhenAsked(st, |first| + |rest|)
    ensures SkipsWhenAsked(st, |first|)
    ensures SkipsWhenAsked(AfterSkipping(st, first), |rest|)
    ensures AfterSkipping(AfterSkipping(st, first), rest) == AfterSkipping(st, first + rest)
  {
    var engine, keys := st.env.engine, st.env.keys;
    var n1, n := |first|, |first| + |rest|;
    assert engine[..n] == engine[..n1] + engine[n1..][..n - n1];
    AmongConcat(engine[..n1], engine[n1..][..n - n1]);
    var f1 := FailedAmong(engine[..n1]);
    var f2 := FailedAmong(engine[n1..][..n - n1]);
    assert forall i | 0 <= i < f2 :: keys[f1..][i] == keys[f1 + i];
    assert engine[n1..][n - n1..] == engine[n..];
    assert keys[f1..][f2..] == keys[f1 + f2..];
    assert st.visited + first + rest == st.visited + (first + rest);
  }

  /**
   With an operator who skips whenever asked, the walk reaches every file,
   counts each as run, counts as passed exactly the files the engine passes,
   and reads one key per failing file; nothing is written.
   */
  lemma {:induction false} WalkWhenSkipping(cfg: Config, base: Path, rel: Path, node: Node, st: State)
    requires SkipsWhenAsked(st, |Leaves(rel, node)|)
    ensures ProcessPath(cfg, base, rel, node, st) == Step(Continue, AfterSkipping(st, Leaves(rel, node)))
    decreases node
  {
    match node
    case File(_) =>
      var counted := st.(run := st.run + 1, visited := st.visited + [rel]);
      ProcessWhenSkipping(cfg, base + rel, counted);
    case Dir(_, children) =>
      ChildrenWhenSkipping(cfg, base, rel, children, st);
  }

  lemma {:induction false} ChildrenWhenSkipping(cfg: Config, base: Path, rel: Path, children: seq<Node>, st: State)
    requires SkipsWhenAsked(st, |ChildLeaves(rel, children)|)
    ensures ProcessChildren(cfg, base, rel, children, st) == Step(Continue, AfterSkipping(st, ChildLeaves(rel, children)))
    decreases children
  {
    if |children| == 0 {
      assert st.env.engine[..0] == [];
      assert st.visited + [] == st.visited;
      assert st.env.engine[0..] == st.env.engine && st.env.keys[0..] == st.env.keys;
    } else {
      var child := children[0];
      var firstLeaves := Leaves(rel + [child.name], child);
      var restLeaves := ChildLeaves(rel, children[1..]);
      assert ChildLeaves(rel, children) == firstLeaves + restLeaves;
      AfterSkippingSplits(st, firstLeaves, restLeaves);
      WalkWhenSkipping(cfg, base, rel + [child.name], child, st);
      ChildrenWhenSkipping(cfg, base, rel, children[1..], AfterSkipping(st, firstLeaves));
    }
  }

  /** When the engine passes every answer, all of them count as passed. */
  lemma {:induction false} AllPassesCounted(answers: seq<CaseLoad>)
    requires forall i | 0 <= i < |answers| :: Passes(answers[i])
    ensures PassedAmong(answers) == |answers| && FailedAmong(answers) == 0
  {
    if |answers| != 0 {
      AllPassesCounted(answers[1..]);
    }
  }

  /**
   When the engine passes every file, the walk goes through the whole tree
   without reading a key or writing anything, and successes equal runs.
   */
  lemma AllPassWalk(cfg: Config, base: Path, rel: Path, node: Node, st: State)
    requires |Leaves(rel, node)| <= |st.env.engine|
    requires forall i | 0 <= i < |Leaves(rel, node)| :: Passes(st.env.engine[i])
    ensures var n := |Leaves(rel, node)|;
      var r := ProcessPath(cfg, base, rel, node, st);
      && r.signal == Continue
      && r.st.run == st.run + n && r.st.success == st.success + n
      && r.st.visited == st.visited + Leaves(rel, node)
      && r.st.env == st.env.(engine := st.env.engine[n..])
      && r.st.effects == st.effects
  {
    var n := |Leaves(rel, node)|;
    AllPassesCounted(st.env.engine[..n]);
    WalkWhenSkipping(cfg, base, rel, node, st);
    assert st.env.keys[0..] == st.env.keys;
  }

  /** The editor's exit statuses never change where the walk goes or what it counts. */
  lemma {:induction false} WalkIgnoresEditorStatus(cfg: Config, base: Path, rel: Path, node: Node, a: State, b: State)
    requires SameButEditorStatus(a, b)
    ensures var ra := ProcessPath(cfg, base, rel, node, a); var rb := ProcessPath(cfg, base, rel, node, b);
      ra.signal == rb.signal && SameButEditorStatus(ra.st, rb.st)
    decreases node
  {
    match node
    case File(_) =>
      ProcessIgnoresEditorStatus(cfg, base + rel,
        a.(run := a.run + 1, visited := a.visited + [rel]), b.(run := b.run + 1, visited := b.visited + [rel]));
    case Dir(_, children) =>
      ChildrenIgnoreEditorStatus(cfg, base, rel, children, a, b);
  }

  lemma {:induction false} ChildrenIgnoreEditorStatus(cfg: Config, base: Path, rel: Path, children: seq<Node>, a: State, b: State)
    requires SameButEditorStatus(a, b)
    ensures var ra := ProcessChildren(cfg, base, rel, children, a);
      var rb := ProcessChildren(cfg, base, rel, children, b);
      ra.signal == rb.signal && SameButEditorStatus(ra.st, rb.st)
    decreases children
  {
    if |children| != 0 {
      var child := children[0];
      WalkIgnoresEditorStatus(cfg, base, rel + [child.name], child, a, b);
      var fa := ProcessPath(cfg, base, rel + [child.name], child, a);
      var fb := ProcessPath(cfg, base, rel + [child.name], child, b);
      if fa.signal == Continue {
        ChildrenIgnoreEditorStatus(cfg, base, rel, children[1..], fa.st, fb.st);
      }
    }
  }

  /**
   The reference walk: the test files in the given order, each counted as
   run and processed, stopping at the first that does not answer `Continue`
   and passing that answer on unchanged.
   */
  function RunFiles(cfg: Config, base: Path, files: seq<Path>, st: State): (r: Step)
    decreases |files|
  {
    if |files| == 0 then Step(Continue, st)
    else
      var first := Process(cfg, base + files[0], st.(run := st.run + 1, visited := st.visited + [files[0]]));
      if first.signal != Continue then first
      else RunFiles(cfg, base, files[1..], first.st)
  }

  /** Running two lists of files in a row is running their concatenation. */
  lemma {:induction false} RunFilesConcat(cfg: Config, base: Path, a: seq<Path>, b: seq<Path>, st: State)
    ensures var r := RunFiles(cfg, base, a, st);
      RunFiles(cfg, base, a + b, st) == if r.signal != Continue then r else RunFiles(cfg, base, b, r.st)
    decreases |a|
  {
    if |a| == 0 {
      assert a + b == b;
    } else {
      assert (a + b)[0] == a[0];
      assert (a + b)[1..] == a[1..] + b;
      var first := Process(cfg, base + a[0], st.(run := st.run + 1, visited := st.visited + [a[0]]));
      if first.signal == Continue {
        RunFilesConcat(cfg, base, a[1..], b, first.st);
      }
    }
  }

  /**
   The recursive walk over the tree is the flat walk over its test files in
   visiting order: it stops at the first file whose processing does not
   answer `Continue`, reaches no later file at any level, and answers what
   that file answered.
   */
  lemma {:induction false} WalkIsFlat(cfg: Config, base: Path, rel: Path, node: Node, st: State)
    ensures ProcessPath(cfg, base, rel, node, st) == RunFiles(cfg, base, Leaves(rel, node), st)
    decreases node
  {
    match node
    case File(_) =>
      assert [rel][1..] == [];
    case Dir(_, children) =>
      ChildrenAreFlat(cfg, base, rel, children, st);
  }

  lemma {:induction false} ChildrenAreFlat(cfg: Config, base: Path, rel: Path, children: seq<Node>, st: State)
    ensures ProcessChildren(cfg, base, rel, children, st) == RunFiles(cfg, base, ChildLeaves(rel, children), st)
    decreases children
  {
    if |children| != 0 {
      var child := children[0];
      var firstLeaves := Leaves(rel + [child.name], child);
      var restLeaves := ChildLeaves(rel, children[1..]);
      WalkIsFlat(cfg, base, rel + [child.name], child, st);
      RunFilesConcat(cfg, base, firstLeaves, restLeaves, st);
      var first := ProcessPath(cfg, base, rel + [child.name], child, st);
      if first.signal == Continue {
        ChildrenAreFlat(cfg, base, rel, children[1..], first.st);
      }
    }
  }
}
